/** JSON values as the command policy sees them, the text `JSON.stringify` prints for them, and
    the meaning of a value: what a `jsonb` column keeps, where an object is a finite map. */
module Json {

  datatype List<+T> = Nil | Cons(head: T, tail: List<T>)

  /** An entry of `Object.entries`: the key with whatever is being computed for it. */
  datatype Keyed<+T> = Keyed(key: string, value: T)

  /** A number is identified by the text the number printer gives it. */
  type Numeral = s: string | IsNumeral(s) witness "0"

  predicate IsNumeral(s: string) {
    && s != ""
    && (s[0] == '-' || '0' <= s[0] <= '9')
    && forall i :: 0 <= i < |s| ==> s[i] in "0123456789-+.e"
  }

  /** Objects list their members in insertion order; `WellFormed` says that no key repeats. */
  datatype Json =
    | Null
    | Bool(b: bool)
    | Num(text: Numeral)
    | Str(s: string)
    | Arr(items: List<Json>)
    | Obj(members: List<Keyed<Json>>)

  datatype Value =
    | NullValue
    | BoolValue(b: bool)
    | NumValue(text: Numeral)
    | StrValue(s: string)
    | ArrValue(items: seq<Value>)
    | ObjValue(members: map<string, Value>)

  ghost function Size(j: Json): nat {
    match j
    case Arr(items) => 1 + ItemsSize(items)
    case Obj(members) => 1 + MembersSize(members)
    case _ => 1
  }

  ghost function ItemsSize(items: List<Json>): nat {
    match items
    case Nil => 0
    case Cons(j, rest) => 1 + Size(j) + ItemsSize(rest)
  }

  ghost function MembersSize(members: List<Keyed<Json>>): nat {
    match members
    case Nil => 0
    case Cons(m, rest) => 1 + Size(m.value) + MembersSize(rest)
  }

  function Keys<T>(members: List<Keyed<T>>): set<string> {
    match members
    case Nil => {}
    case Cons(m, rest) => {m.key} + Keys(rest)
  }

  predicate DistinctKeys<T>(members: List<Keyed<T>>) {
    match members
    case Nil => true
    case Cons(m, rest) => m.key !in Keys(rest) && DistinctKeys(rest)
  }

  function Lookup<T>(members: List<Keyed<T>>, key: string): (value: T)
    requires key in Keys(members)
  {
    if members.head.key == key then members.head.value else Lookup(members.tail, key)
  }

  predicate WellFormed(j: Json) {
    match j
    case Arr(items) => WellFormedItems(items)
    case Obj(members) => DistinctKeys(members) && WellFormedMembers(members)
    case _ => true
  }

  predicate WellFormedItems(items: List<Json>) {
    match items
    case Nil => true
    case Cons(j, rest) => WellFormed(j) && WellFormedItems(rest)
  }

  predicate WellFormedMembers(members: List<Keyed<Json>>) {
    match members
    case Nil => true
    case Cons(m, rest) => WellFormed(m.value) && WellFormedMembers(rest)
  }

  /** Two JSON values are equal up to object key order exactly when they mean the same value. */
  function Meaning(j: Json): Value {
    match j
    case Null => NullValue
    case Bool(b) => BoolValue(b)
    case Num(text) => NumValue(text)
    case Str(s) => StrValue(s)
    case Arr(items) => ArrValue(ItemsMeaning(items))
    case Obj(members) => ObjValue(MembersMeaning(members))
  }

  function ItemsMeaning(items: List<Json>): seq<Value> {
    match items
    case Nil => []
    case Cons(j, rest) => [Meaning(j)] + ItemsMeaning(rest)
  }

  function MembersMeaning(members: List<Keyed<Json>>): (m: map<string, Value>)
    ensures m.Keys == Keys(members)
  {
    match members
    case Nil => map[]
    case Cons(m, rest) => MembersMeaning(rest)[m.key := Meaning(m.value)]
  }

  lemma {:induction false} LookupMeaning(members: List<Keyed<Json>>, key: string)
    requires key in Keys(members)
    ensures MembersMeaning(members)[key] == Meaning(Lookup(members, key))
    ensures Size(Lookup(members, key)) < MembersSize(members)
    ensures WellFormedMembers(members) ==> WellFormed(Lookup(members, key))
  {
    if members.head.key != key {
      LookupMeaning(members.tail, key);
    }
  }

  // ---------------------------------------------------------------- printing

  function HexDigit(n: nat): char
    requires n < 16
  {
    "0123456789abcdef"[n]
  }

  /** One character inside a quoted string (section 25.5.2.3 of ECMA-262). */
  function EscapeChar(c: char): string {
    if c == '"' then "\\\""
    else if c == '\\' then "\\\\"
    else if c as int == 8 then "\\b"
    else if c as int == 9 then "\\t"
    else if c as int == 10 then "\\n"
    else if c as int == 12 then "\\f"
    else if c as int == 13 then "\\r"
    else if c as int < 32 then "\\u00" + [HexDigit(c as int / 16), HexDigit(c as int % 16)]
    else [c]
  }

  function Escape(s: string): string {
    if s == "" then "" else EscapeChar(s[0]) + Escape(s[1..])
  }

  function Quote(s: string): string {
    "\"" + Escape(s) + "\""
  }

  function Join(texts: List<string>): string {
    match texts
    case Nil => ""
    case Cons(t, Nil) => t
    case Cons(t, rest) => t + "," + Join(rest)
  }

  /** `JSON.stringify` without indentation. */
  function Print(j: Json): string {
    match j
    case Null => "null"
    case Bool(b) => if b then "true" else "false"
    case Num(text) => text
    case Str(s) => Quote(s)
    case Arr(items) => "[" + Join(ItemTexts(items)) + "]"
    case Obj(members) => "{" + Join(Texts(MemberTexts(members))) + "}"
  }

  function ItemTexts(items: List<Json>): List<string> {
    match items
    case Nil => Nil
    case Cons(j, rest) => Cons(Print(j), ItemTexts(rest))
  }

  function MemberTexts(members: List<Keyed<Json>>): List<Keyed<string>> {
    match members
    case Nil => Nil
    case Cons(m, rest) => Cons(Keyed(m.key, Quote(m.key) + ":" + Print(m.value)), MemberTexts(rest))
  }

  function Texts(entries: List<Keyed<string>>): List<string> {
    match entries
    case Nil => Nil
    case Cons(e, rest) => Cons(e.value, Texts(rest))
  }

  /** What may follow a printed value inside a larger text. */
  predicate Stops(x: string) {
    x == "" || x[0] in ",]}"
  }

  lemma Assoc(a: string, b: string, c: string)
    ensures (a + b) + c == a + (b + c)
  {
  }

  lemma Peel(a: char, x: string, b: char, y: string)
    requires [a] + x == [b] + y
    ensures a == b && x == y
  {
    assert ([a] + x)[0] == a && ([b] + y)[0] == b;
    assert x == ([a] + x)[1..] && y == ([b] + y)[1..];
  }

  lemma Front(s: string, x: string)
    requires s != ""
    ensures s + x == [s[0]] + (s[1..] + x)
  {
  }

  lemma FrontReads(s: string, x: string, t: string, y: string)
    requires s != "" && t != "" && s + x == t + y
    ensures s[0] == t[0] && s[1..] + x == t[1..] + y
  {
    Front(s, x);
    Front(t, y);
    Peel(s[0], s[1..] + x, t[0], t[1..] + y);
  }

  /** Texts of equal length split a concatenation in one way. */
  lemma Halves(s: string, x: string, t: string, y: string)
    requires s + x == t + y && |s| == |t|
    ensures s == t && x == y
  {
    assert s == (s + x)[..|s|] && t == (t + y)[..|t|];
    assert x == (s + x)[|s|..] && y == (t + y)[|t|..];
  }

  lemma EscapeCharShape(c: char)
    ensures |EscapeChar(c)| in {1, 2, 6}
    ensures EscapeChar(c)[0] != '"'
    ensures EscapeChar(c)[0] == '\\' <==> |EscapeChar(c)| > 1
    ensures |EscapeChar(c)| == 1 ==> EscapeChar(c)[0] == c
    ensures |EscapeChar(c)| > 1 ==> (EscapeChar(c)[1] == 'u' <==> |EscapeChar(c)| == 6)
  {
  }

  datatype Parsed = NotAString | Parsed(text: string)

  /** What a reader takes the text between the quotes for (section 12.9.4 of ECMA-262, as far as JSON
      allows it). */
  function Unescape(s: string): Parsed {
    if s == "" then Parsed("")
    else if s[0] == '"' || (s[0] as int) < 32 then NotAString
    else if s[0] != '\\' then Prefixed(s[0], Unescape(s[1..]))
    else if |s| < 2 then NotAString
    else if s[1] in "\"\\/" then Prefixed(s[1], Unescape(s[2..]))
    else if s[1] == 'b' then Prefixed(8 as char, Unescape(s[2..]))
    else if s[1] == 't' then Prefixed(9 as char, Unescape(s[2..]))
    else if s[1] == 'n' then Prefixed(10 as char, Unescape(s[2..]))
    else if s[1] == 'f' then Prefixed(12 as char, Unescape(s[2..]))
    else if s[1] == 'r' then Prefixed(13 as char, Unescape(s[2..]))
    else if s[1] == 'u' && |s| >= 6 && s[2..4] == "00" && HexValue(s[4]) >= 0 && HexValue(s[5]) >= 0 then
      Prefixed((16 * HexValue(s[4]) + HexValue(s[5])) as char, Unescape(s[6..]))
    else NotAString
  }

  function Prefixed(c: char, rest: Parsed): Parsed {
    if rest.NotAString? then rest else Parsed([c] + rest.text)
  }

  function HexValue(c: char): (n: int)
    ensures -1 <= n < 16
  {
    if '0' <= c <= '9' then c as int - '0' as int
    else if 'a' <= c <= 'f' then c as int - 'a' as int + 10
    else -1
  }

  lemma HexDigitValue(n: nat)
    requires n < 16
    ensures HexValue(HexDigit(n)) == n
  {
  }

  lemma UnescapePlain(c: char, rest: string)
    requires |EscapeChar(c)| == 1
    ensures Unescape([c] + rest) == Prefixed(c, Unescape(rest))
  {
    assert ([c] + rest)[1..] == rest;
  }

  lemma UnescapeShort(c: char, rest: string)
    requires |EscapeChar(c)| == 2
    ensures Unescape(EscapeChar(c) + rest) == Prefixed(c, Unescape(rest))
  {
    assert (EscapeChar(c) + rest)[2..] == rest;
  }

  lemma UnescapeHex(c: char, rest: string)
    requires |EscapeChar(c)| == 6
    ensures Unescape(EscapeChar(c) + rest) == Prefixed(c, Unescape(rest))
  {
    var e := EscapeChar(c);
    HexDigitValue(c as int / 16);
    HexDigitValue(c as int % 16);
    assert (e + rest)[2..4] == e[2..4] == "00";
    assert (e + rest)[6..] == rest && (e + rest)[4] == e[4] && (e + rest)[5] == e[5];
  }

  /** Reading an escaped string gives it back. */
  lemma {:induction false} UnescapeEscape(s: string)
    ensures Unescape(Escape(s)) == Parsed(s)
  {
    if s != "" {
      var rest := Escape(s[1..]);
      UnescapeEscape(s[1..]);
      EscapeCharShape(s[0]);
      if |EscapeChar(s[0])| == 1 {
        assert EscapeChar(s[0]) == [s[0]];
        UnescapePlain(s[0], rest);
      } else if |EscapeChar(s[0])| == 2 {
        UnescapeShort(s[0], rest);
      } else {
        UnescapeHex(s[0], rest);
      }
      assert s == [s[0]] + s[1..];
    }
  }

  /** Only quotes, backslashes and control characters are escaped. */
  lemma {:induction false} PlainStays(s: string)
    requires forall i :: 0 <= i < |s| ==> s[i] != '"' && s[i] != '\\' && s[i] as int >= 32
    ensures Escape(s) == s
  {
    if s != "" {
      PlainStays(s[1..]);
      assert s == [s[0]] + s[1..];
    }
  }

  /** The texts of the values that are no arrays or objects; a string can be read back from between its
      quotes. */
  lemma ScalarTexts(b: bool, text: Numeral, s: string)
    ensures Print(Null) == "null" && Print(Num(text)) == text
    ensures Print(Bool(b)) == if b then "true" else "false"
    ensures |Print(Str(s))| >= 2 && Print(Str(s))[0] == Print(Str(s))[|Print(Str(s))| - 1] == '"'
    ensures Unescape(Print(Str(s))[1..|Print(Str(s))| - 1]) == Parsed(s)
  {
    UnescapeEscape(s);
    assert Print(Str(s))[1..|Print(Str(s))| - 1] == Escape(s);
  }

  lemma EscapeCharInjective(a: char, b: char)
    requires EscapeChar(a) == EscapeChar(b)
    ensures a == b
  {
    EscapeCharShape(a);
    EscapeCharShape(b);
    if |EscapeChar(a)| == 6 {
      HexInjective(a as int / 16, b as int / 16, EscapeChar(a)[4], EscapeChar(b)[4]);
      HexInjective(a as int % 16, b as int % 16, EscapeChar(a)[5], EscapeChar(b)[5]);
    }
  }

  lemma HexInjective(m: nat, n: nat, c: char, d: char)
    requires m < 16 && n < 16 && c == HexDigit(m) && d == HexDigit(n)
    ensures c == d ==> m == n
  {
  }

  lemma EscapeCharReads(a: char, b: char, x: string, y: string)
    requires EscapeChar(a) + x == EscapeChar(b) + y
    ensures a == b && x == y
  {
    EscapeCharShape(a);
    EscapeCharShape(b);
    FrontReads(EscapeChar(a), x, EscapeChar(b), y);
    if |EscapeChar(a)| > 1 {
      FrontReads(EscapeChar(a)[1..], x, EscapeChar(b)[1..], y);
    }
    Halves(EscapeChar(a), x, EscapeChar(b), y);
    EscapeCharInjective(a, b);
  }

  lemma {:induction false} EscapeReads(s: string, t: string, x: string, y: string)
    requires Escape(s) + ("\"" + x) == Escape(t) + ("\"" + y)
    ensures s == t && x == y
  {
    if s != "" {
      EscapeCharShape(s[0]);
      Assoc(EscapeChar(s[0]), Escape(s[1..]), "\"" + x);
    }
    if t != "" {
      EscapeCharShape(t[0]);
      Assoc(EscapeChar(t[0]), Escape(t[1..]), "\"" + y);
    }
    EscapeStep(s, t, x, y);
    if s != "" && t != "" {
      EscapeCharReads(s[0], t[0], Escape(s[1..]) + ("\"" + x), Escape(t[1..]) + ("\"" + y));
      EscapeReads(s[1..], t[1..], x, y);
      assert s == [s[0]] + s[1..] && t == [t[0]] + t[1..];
    } else {
      Halves(Escape(s), "\"" + x, Escape(t), "\"" + y);
      Halves("\"", x, "\"", y);
    }
  }

  lemma EscapeStep(s: string, t: string, x: string, y: string)
    requires Escape(s) + ("\"" + x) == Escape(t) + ("\"" + y)
    ensures s == "" <==> t == ""
  {
    EscapeStarts(s, x);
    EscapeStarts(t, y);
  }

  lemma EscapeStarts(s: string, x: string)
    ensures (Escape(s) + ("\"" + x))[0] == '"' <==> s == ""
  {
    if s != "" {
      EscapeCharShape(s[0]);
      assert (Escape(s) + ("\"" + x))[0] == EscapeChar(s[0])[0];
    }
  }

  lemma QuoteReads(s: string, t: string, x: string, y: string)
    requires Quote(s) + x == Quote(t) + y
    ensures s == t && x == y
  {
    QuoteSplits(s, x);
    QuoteSplits(t, y);
    Peel('"', Escape(s) + ("\"" + x), '"', Escape(t) + ("\"" + y));
    EscapeReads(s, t, x, y);
  }

  lemma QuoteSplits(s: string, x: string)
    ensures Quote(s) + x == ['"'] + (Escape(s) + ("\"" + x))
  {
    Assoc("\"" + Escape(s), "\"", x);
    Assoc("\"", Escape(s), "\"" + x);
  }

  lemma NumeralReads(s: Numeral, t: Numeral, x: string, y: string)
    requires s + x == t + y && Stops(x) && Stops(y)
    ensures s == t && x == y
  {
    if |s| < |t| {
      ShorterNumeral(s, t, x, y);
      assert false;
    }
    if |t| < |s| {
      ShorterNumeral(t, s, y, x);
      assert false;
    }
    Halves(s, x, t, y);
  }

  lemma ShorterNumeral(s: Numeral, t: Numeral, x: string, y: string)
    requires |s| < |t| && Stops(x)
    ensures s + x != t + y
  {
    assert x == "" || (s + x)[|s|] == x[0];
    assert (t + y)[|s|] == t[|s|];
  }

  /** The first character of a printed value tells its kind. */
  lemma FirstChar(j: Json)
    ensures Print(j) != ""
    ensures Print(j)[0] == 'n' <==> j.Null?
    ensures Print(j)[0] == 't' <==> j == Bool(true)
    ensures Print(j)[0] == 'f' <==> j == Bool(false)
    ensures Print(j)[0] == '"' <==> j.Str?
    ensures Print(j)[0] == '[' <==> j.Arr?
    ensures Print(j)[0] == '{' <==> j.Obj?
    ensures Print(j)[0] !in ",]}"
  {
  }

  /** A printed value can be read back from the front of any text in which it is delimited. */
  lemma {:induction false} PrintReads(a: Json, b: Json, x: string, y: string)
    requires Print(a) + x == Print(b) + y && Stops(x) && Stops(y)
    ensures a == b && x == y
    decreases Size(a), 1
  {
    SameKind(a, b, x, y);
    match a
    case Num(s) =>
      NumeralReads(s, b.text, x, y);
    case Str(s) =>
      QuoteReads(s, b.s, x, y);
    case Arr(items) =>
      Bracketed("[", Join(ItemTexts(items)), "]", x, Join(ItemTexts(b.items)), y);
      ItemsRead(items, b.items, x, y);
    case Obj(members) =>
      Bracketed("{", Join(Texts(MemberTexts(members))), "}", x, Join(Texts(MemberTexts(b.members))), y);
      MembersRead(members, b.members, x, y);
    case _ =>
      Halves(Print(a), x, Print(b), y);
  }

  lemma SameKind(a: Json, b: Json, x: string, y: string)
    requires Print(a) + x == Print(b) + y
    ensures a.Null? == b.Null? && a.Num? == b.Num? && a.Str? == b.Str? && a.Arr? == b.Arr? && a.Obj? == b.Obj?
    ensures a.Bool? ==> a == b
  {
    FirstChar(a);
    FirstChar(b);
    FrontReads(Print(a), x, Print(b), y);
  }

  lemma Bracketed(open: string, p: string, close: string, x: string, q: string, y: string)
    requires open + p + close + x == open + q + close + y
    ensures p + (close + x) == q + (close + y)
  {
    Assoc(open + p, close, x);
    Assoc(open, p, close + x);
    Assoc(open + q, close, y);
    Assoc(open, q, close + y);
    Halves(open, p + (close + x), open, q + (close + y));
  }

  /** What is printed after the first of several texts. */
  function After(rest: List<string>, close: string): string {
    if rest.Nil? then close else "," + (Join(rest) + close)
  }

  lemma JoinSplits(t: string, rest: List<string>, close: string)
    ensures Join(Cons(t, rest)) + close == t + After(rest, close)
  {
    if rest.Cons? {
      Assoc(t + ",", Join(rest), close);
      Assoc(t, ",", Join(rest) + close);
    }
  }

  lemma AfterStops(rest: List<string>, c: char, x: string)
    requires c in "]}"
    ensures Stops(After(rest, [c] + x))
  {
  }

  lemma AfterReads(r: List<string>, s: List<string>, c: char, x: string, y: string)
    requires After(r, [c] + x) == After(s, [c] + y) && c in "]}"
    ensures r.Nil? <==> s.Nil?
    ensures r.Nil? ==> x == y
    ensures r.Cons? ==> Join(r) + ([c] + x) == Join(s) + ([c] + y)
  {
    Peel(if r.Nil? then c else ',', if r.Nil? then x else Join(r) + ([c] + x),
         if s.Nil? then c else ',', if s.Nil? then y else Join(s) + ([c] + y));
  }

  lemma {:induction false} ItemsRead(a: List<Json>, b: List<Json>, x: string, y: string)
    requires Join(ItemTexts(a)) + ("]" + x) == Join(ItemTexts(b)) + ("]" + y)
    ensures a == b && x == y
    decreases ItemsSize(a), 0
  {
    ItemsStart(a, x);
    ItemsStart(b, y);
    if a.Nil? {
      Peel(']', x, ']', y);
    } else {
      var ra, rb := After(ItemTexts(a.tail), "]" + x), After(ItemTexts(b.tail), "]" + y);
      AfterStops(ItemTexts(a.tail), ']', x);
      AfterStops(ItemTexts(b.tail), ']', y);
      PrintReads(a.head, b.head, ra, rb);
      AfterReads(ItemTexts(a.tail), ItemTexts(b.tail), ']', x, y);
      if a.tail.Cons? {
        ItemsRead(a.tail, b.tail, x, y);
      }
    }
  }

  lemma ItemsStart(a: List<Json>, x: string)
    ensures var p := Join(ItemTexts(a)) + ("]" + x); p != "" && (p[0] == ']' <==> a.Nil?)
    ensures a.Nil? ==> Join(ItemTexts(a)) + ("]" + x) == [']'] + x
    ensures a.Cons? ==> Join(ItemTexts(a)) + ("]" + x) == Print(a.head) + After(ItemTexts(a.tail), "]" + x)
  {
    if a.Cons? {
      JoinSplits(Print(a.head), ItemTexts(a.tail), "]" + x);
      FirstChar(a.head);
      Front(Print(a.head), After(ItemTexts(a.tail), "]" + x));
    }
  }

  lemma {:induction false} MembersRead(a: List<Keyed<Json>>, b: List<Keyed<Json>>, x: string, y: string)
    requires Join(Texts(MemberTexts(a))) + ("}" + x) == Join(Texts(MemberTexts(b))) + ("}" + y)
    ensures a == b && x == y
    decreases MembersSize(a), 0
  {
    MembersStart(a, x);
    MembersStart(b, y);
    if a.Nil? {
      Peel('}', x, '}', y);
    } else {
      var ta, tb := Texts(MemberTexts(a.tail)), Texts(MemberTexts(b.tail));
      var ra, rb := After(ta, "}" + x), After(tb, "}" + y);
      MemberReads(a.head, b.head, ra, rb);
      AfterStops(ta, '}', x);
      AfterStops(tb, '}', y);
      PrintReads(a.head.value, b.head.value, ra, rb);
      AfterReads(ta, tb, '}', x, y);
      if a.tail.Cons? {
        MembersRead(a.tail, b.tail, x, y);
      }
    }
  }

  lemma MembersStart(a: List<Keyed<Json>>, x: string)
    ensures var p := Join(Texts(MemberTexts(a))) + ("}" + x); p != "" && (p[0] == '}' <==> a.Nil?)
    ensures a.Nil? ==> Join(Texts(MemberTexts(a))) + ("}" + x) == ['}'] + x
    ensures a.Cons? ==>
      Join(Texts(MemberTexts(a))) + ("}" + x)
      == Quote(a.head.key) + ":" + Print(a.head.value) + After(Texts(MemberTexts(a.tail)), "}" + x)
  {
    if a.Cons? {
      var t := Quote(a.head.key) + ":" + Print(a.head.value);
      JoinSplits(t, Texts(MemberTexts(a.tail)), "}" + x);
      assert t[0] == '"';
      Front(t, After(Texts(MemberTexts(a.tail)), "}" + x));
    }
  }

  lemma MemberReads(m: Keyed<Json>, n: Keyed<Json>, x: string, y: string)
    requires Quote(m.key) + ":" + Print(m.value) + x == Quote(n.key) + ":" + Print(n.value) + y
    ensures m.key == n.key && Print(m.value) + x == Print(n.value) + y
  {
    MemberSplits(Quote(m.key), Print(m.value), x);
    MemberSplits(Quote(n.key), Print(n.value), y);
    QuoteReads(m.key, n.key, [':'] + (Print(m.value) + x), [':'] + (Print(n.value) + y));
    Peel(':', Print(m.value) + x, ':', Print(n.value) + y);
  }

  lemma MemberSplits(key: string, value: string, x: string)
    ensures key + ":" + value + x == key + ([':'] + (value + x))
  {
    Assoc(key + ":", value, x);
    Assoc(key, ":", value + x);
  }

  /** Distinct JSON values never print the same text. */
  lemma PrintInjective(a: Json, b: Json)
    requires Print(a) == Print(b)
    ensures a == b
  {
    assert Print(a) + "" == Print(a) && Print(b) + "" == Print(b);
    PrintReads(a, b, "", "");
  }
}

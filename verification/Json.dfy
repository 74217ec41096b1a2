/** The restricted canonical JSON of both programs: printable ASCII texts, 64-bit integers, bounded nesting. */
module Json {
  import opened Types
  import opened Price
  import opened Ordering

  // ------------------------------------------------------------------- values

  datatype Value = Flag(b: bool) | Number(n: int) | Text(s: string) | List(items: seq<Value>)
    | Object(members: seq<Member>)

  datatype Member = Member(name: string, value: Value)

  predicate Printable(s: string) {
    forall i :: 0 <= i < |s| ==> ' ' <= s[i] <= '~'
  }

  predicate SafeText(s: string) {
    |s| <= 512 && Printable(s)
  }

  predicate Blank(s: string) {
    forall i :: 0 <= i < |s| ==> s[i] == ' '
  }

  /** The one longer text: an explanation, here in its ASCII part. */
  predicate SafeExplanation(s: string) {
    !Blank(s) && |s| <= 2000 && Printable(s)
  }

  const EXPLANATION := "explanation"

  predicate SafeName(s: string) {
    SafeText(s) && s != "__proto__" && s != "constructor" && s != "prototype"
  }

  const MAX_DEPTH := 8
  const MAX_ITEMS := 16
  const MAX_MEMBERS := 32

  predicate DistinctNames(ms: seq<Member>) {
    forall i, j :: 0 <= i < j < |ms| ==> ms[i].name != ms[j].name
  }

  predicate Ascends(ms: seq<Member>) {
    forall i, j :: 0 <= i < j < |ms| ==> Before(ms[i].name, ms[j].name)
  }

  /** Within the parser's limits at this depth; the members of an object may come in any order. */
  predicate Admitted(v: Value, depth: nat)
    decreases v
  {
    && depth <= MAX_DEPTH
    && match v
       case Flag(_) => true
       case Number(n) => Fits64(n)
       case Text(s) => SafeText(s)
       case List(items) => |items| <= MAX_ITEMS && forall i :: 0 <= i < |items| ==> Admitted(items[i], depth + 1)
       case Object(ms) =>
         && |ms| <= MAX_MEMBERS
         && (forall i :: 0 <= i < |ms| ==> AdmittedMember(ms[i], depth))
         && DistinctNames(ms)
  }

  predicate AdmittedMember(m: Member, depth: nat)
    decreases m
  {
    SafeName(m.name) && if m.name == EXPLANATION then m.value.Text? && SafeExplanation(m.value.s)
      else Admitted(m.value, depth + 1)
  }

  // ----------------------------------------------------------------- numerals

  predicate IsDigit(c: char) {
    '0' <= c <= '9'
  }

  function Digit(d: nat): (c: char)
    requires d < 10
    ensures IsDigit(c) && c as int - '0' as int == d
  {
    (d + '0' as int) as char
  }

  function Natural(n: nat): (w: string)
    ensures w != ""
  {
    if n < 10 then [Digit(n)] else Natural(n / 10) + [Digit(n % 10)]
  }

  function Decimal(n: int): (w: string)
    ensures w != ""
  {
    if n < 0 then "-" + Natural(-n) else Natural(n)
  }

  function Amount(w: string): nat
    requires forall i :: 0 <= i < |w| ==> IsDigit(w[i])
  {
    if w == "" then 0
    else
      assert IsDigit(w[|w| - 1]);
      10 * Amount(w[..|w| - 1]) + (w[|w| - 1] as int - '0' as int)
  }

  /** `0` or digits without a leading zero. */
  predicate Unsigned(w: string) {
    w != "" && (forall i :: 0 <= i < |w| ==> IsDigit(w[i])) && (w[0] == '0' ==> w == "0")
  }

  /** The admitted integers: no leading zero, no minus zero, no fraction, no exponent, within 64 bits. */
  function ReadNumeral(w: string): Option<int> {
    if Unsigned(w) then (if Fits64(Amount(w)) then Some(Amount(w)) else None)
    else if w != "" && w[0] == '-' && Unsigned(w[1..]) && w[1..] != "0" then
      (if Fits64(0 - Amount(w[1..])) then Some(0 - Amount(w[1..])) else None)
    else None
  }

  lemma {:induction false} NaturalRead(n: nat)
    ensures Unsigned(Natural(n)) && Amount(Natural(n)) == n
    ensures Natural(n) == "0" <==> n == 0
    ensures Natural(n)[0] == '0' ==> n == 0
  {
    if n >= 10 {
      NaturalRead(n / 10);
      var w := Natural(n / 10);
      assert (w + [Digit(n % 10)])[..|w|] == w;
    }
  }

  lemma UnsignedPrefix(w: string)
    requires Unsigned(w) && |w| > 1
    ensures Unsigned(w[..|w| - 1]) && w[0] != '0' && w[..|w| - 1] != "0"
  {
    assert w[..|w| - 1][0] == w[0];
  }

  lemma NaturalStep(n: nat, d: nat)
    requires n > 0 && d < 10
    ensures Natural(10 * n + d) == Natural(n) + [Digit(d)]
  {
    assert (10 * n + d) / 10 == n && (10 * n + d) % 10 == d;
  }

  lemma {:induction false} UnsignedNatural(w: string)
    requires Unsigned(w)
    ensures Natural(Amount(w)) == w
    ensures Amount(w) == 0 <==> w == "0"
  {
    var n := |w| - 1;
    if n == 0 {
      assert w[..0] == "";
      assert w == [w[0]];
    } else {
      var v := w[..n];
      UnsignedPrefix(w);
      UnsignedNatural(v);
      assert IsDigit(w[n]);
      var d: nat := w[n] as int - '0' as int;
      assert Amount(w) == 10 * Amount(v) + d;
      assert w == v + [w[n]];
      hide Natural, Amount, Unsigned;
      NaturalStep(Amount(v), d);
    }
  }

  lemma PrintedIsRead(n: int)
    requires Fits64(n)
    ensures ReadNumeral(Decimal(n)) == Some(n)
  {
    if n >= 0 {
      NaturalRead(n);
    } else {
      NaturalRead(-n);
      assert ("-" + Natural(-n))[1..] == Natural(-n);
      assert !Unsigned(Decimal(n)) by {
        assert !IsDigit(Decimal(n)[0]);
      }
    }
  }

  lemma ReadIsPrinted(w: string)
    requires ReadNumeral(w).Some?
    ensures Fits64(ReadNumeral(w).value) && w == Decimal(ReadNumeral(w).value)
  {
    if Unsigned(w) {
      UnsignedNatural(w);
    } else {
      UnsignedNatural(w[1..]);
      assert w == "-" + w[1..];
    }
  }

  /** The accepted numerals are exactly the printed 64-bit integers. */
  lemma NumeralsExact(w: string, n: int)
    ensures ReadNumeral(w) == Some(n) <==> Fits64(n) && w == Decimal(n)
  {
    if ReadNumeral(w).Some? {
      ReadIsPrinted(w);
    }
    if Fits64(n) {
      PrintedIsRead(n);
    }
    hide ReadNumeral;
  }

  // ----------------------------------------------------------------- printing

  function Escaped(s: string): string {
    if s == "" then ""
    else (if s[0] == '"' || s[0] == '\\' then ['\\', s[0]] else [s[0]]) + Escaped(s[1..])
  }

  function Quoted(s: string): string {
    "\"" + Escaped(s) + "\""
  }

  /** The text of a value, members in the order they are stored. */
  function Print(v: Value): string
    decreases v, 1
  {
    match v
    case Flag(b) => if b then "true" else "false"
    case Number(n) => Decimal(n)
    case Text(s) => Quoted(s)
    case List(items) => "[" + (if items == [] then "]" else PrintItems(items))
    case Object(ms) => "{" + (if ms == [] then "}" else PrintMembers(ms))
  }

  function PrintItems(items: seq<Value>): string
    requires items != []
    decreases items, 0
  {
    Print(items[0]) + if |items| == 1 then "]" else "," + PrintItems(items[1..])
  }

  function PrintMembers(ms: seq<Member>): string
    requires ms != []
    decreases ms, 0
  {
    Quoted(ms[0].name) + ":" + Print(ms[0].value) + if |ms| == 1 then "}" else "," + PrintMembers(ms[1..])
  }

  // ------------------------------------------------------------------ parsing

  predicate IsSpace(c: char) {
    c == ' ' || c == '\t' || c == '\n' || c == '\r'
  }

  function Skip(t: string): (u: string)
    ensures |u| <= |t|
  {
    if t != "" && IsSpace(t[0]) then Skip(t[1..]) else t
  }

  datatype Read<+T> = Read(value: T, rest: string)

  function HexDigit(c: char): Option<nat> {
    if '0' <= c <= '9' then Some(c as int - '0' as int)
    else if 'a' <= c <= 'f' then Some(c as int - 'a' as int + 10)
    else if 'A' <= c <= 'F' then Some(c as int - 'A' as int + 10)
    else None
  }

  function SimpleEscape(c: char): Option<char> {
    match c
    case '"' => Some('"')
    case '\\' => Some('\\')
    case '/' => Some('/')
    case 'b' => Some(8 as char)
    case 'f' => Some(12 as char)
    case 'n' => Some('\n')
    case 'r' => Some('\r')
    case 't' => Some('\t')
    case _ => None
  }

  /** The rest of a text after its opening quote. A code unit outside ASCII is kept as a mark no profile admits. */
  function ParseText(t: string): (r: Option<Read<string>>)
    ensures r.Some? ==> |r.value.rest| < |t|
  {
    if t == "" || t[0] < ' ' then None
    else if t[0] == '"' then Some(Read("", t[1..]))
    else if t[0] != '\\' then
      var more := ParseText(t[1..]);
      if more.None? then None else Some(Read([t[0]] + more.value.value, more.value.rest))
    else if |t| >= 2 && SimpleEscape(t[1]).Some? then
      var more := ParseText(t[2..]);
      if more.None? then None else Some(Read([SimpleEscape(t[1]).value] + more.value.value, more.value.rest))
    else if |t| >= 6 && t[1] == 'u' && forall i :: 2 <= i < 6 ==> HexDigit(t[i]).Some? then
      var code := ((HexDigit(t[2]).value * 16 + HexDigit(t[3]).value) * 16 + HexDigit(t[4]).value) * 16
        + HexDigit(t[5]).value;
      var more := ParseText(t[6..]);
      if more.None? then None
      else Some(Read([if code < 128 then code as char else 127 as char] + more.value.value, more.value.rest))
    else None
  }

  predicate IsNumeralChar(c: char) {
    IsDigit(c) || c == '-' || c == '+' || c == '.' || c == 'e' || c == 'E'
  }

  /** The longest prefix of numeral characters. */
  function Numeral(t: string): (w: string)
    ensures w <= t
  {
    if t != "" && IsNumeralChar(t[0]) then [t[0]] + Numeral(t[1..]) else ""
  }

  /** Put a member in its place by name; the name must be new. */
  function InsertMember(ms: seq<Member>, m: Member): seq<Member> {
    if ms == [] || Before(m.name, ms[0].name) then [m] + ms else [ms[0]] + InsertMember(ms[1..], m)
  }

  predicate HasName(ms: seq<Member>, name: string) {
    exists i :: 0 <= i < |ms| && ms[i].name == name
  }

  function Parse(text: string, depth: nat): (r: Option<Read<Value>>)
    ensures r.Some? ==> |r.value.rest| < |text|
    decreases |text|, 1
  {
    var t := Skip(text);
    if depth > MAX_DEPTH || t == "" then None
    else if t[0] == '[' then
      var u := Skip(t[1..]);
      if u != "" && u[0] == ']' then Some(Read(List([]), u[1..]))
      else
        var r := ParseItems(t[1..], depth, 0);
        if r.None? then None else Some(Read(List(r.value.value), r.value.rest))
    else if t[0] == '{' then
      var u := Skip(t[1..]);
      if u != "" && u[0] == '}' then Some(Read(Object([]), u[1..]))
      else
        var r := ParseMembers(t[1..], depth, []);
        if r.None? then None else Some(Read(Object(r.value.value), r.value.rest))
    else if t[0] == '"' then
      var r := ParseText(t[1..]);
      if r.None? || !SafeText(r.value.value) then None else Some(Read(Text(r.value.value), r.value.rest))
    else if |t| >= 4 && t[..4] == "true" then Some(Read(Flag(true), t[4..]))
    else if |t| >= 5 && t[..5] == "false" then Some(Read(Flag(false), t[5..]))
    else
      var w := Numeral(t);
      if w == "" || ReadNumeral(w).None? then None else Some(Read(Number(ReadNumeral(w).value), t[|w|..]))
  }

  /** One or more items up to the closing bracket; `count` are already read. */
  function ParseItems(t: string, depth: nat, count: nat): (r: Option<Read<seq<Value>>>)
    ensures r.Some? ==> |r.value.rest| < |t|
    decreases |t|, 2
  {
    if count >= MAX_ITEMS then None
    else
      var v := Parse(t, depth + 1);
      if v.None? then None
      else
        var u := Skip(v.value.rest);
        if u == "" then None
        else if u[0] == ']' then Some(Read([v.value.value], u[1..]))
        else if u[0] == ',' then
          var more := ParseItems(u[1..], depth, count + 1);
          if more.None? then None else Some(Read([v.value.value] + more.value.value, more.value.rest))
        else None
  }

  /** A name and its colon, if the name is safe, new, and not one too many. */
  function ParseName(text: string, ms: seq<Member>): (r: Option<Read<string>>)
    ensures r.Some? ==> |r.value.rest| < |text|
  {
    var t := Skip(text);
    if t == "" || t[0] != '"' then None
    else
      var k := ParseText(t[1..]);
      if k.None? || !SafeName(k.value.value) || |ms| >= MAX_MEMBERS || HasName(ms, k.value.value) then None
      else
        var u := Skip(k.value.rest);
        if u == "" || u[0] != ':' then None else Some(Read(k.value.value, u[1..]))
  }

  /** The value under a name; under `explanation` only a text of that name's own rule. */
  function ParseUnder(name: string, text: string, depth: nat): (r: Option<Read<Value>>)
    ensures r.Some? ==> |r.value.rest| < |text|
    decreases |text|, 2
  {
    if name != EXPLANATION then Parse(text, depth + 1)
    else
      var t := Skip(text);
      if t == "" || t[0] != '"' then None
      else
        var s := ParseText(t[1..]);
        if s.None? || !SafeExplanation(s.value.value) then None else Some(Read(Text(s.value.value), s.value.rest))
  }

  /** One or more members up to the closing brace, put into `ms`. */
  function ParseMembers(t: string, depth: nat, ms: seq<Member>): (r: Option<Read<seq<Member>>>)
    ensures r.Some? ==> |r.value.rest| < |t|
    decreases |t|, 3
  {
    var k := ParseName(t, ms);
    if k.None? then None
    else
      var v := ParseUnder(k.value.value, k.value.rest, depth);
      if v.None? then None
      else
        var now := InsertMember(ms, Member(k.value.value, v.value.value));
        var u := Skip(v.value.rest);
        if u == "" then None
        else if u[0] == '}' then Some(Read(now, u[1..]))
        else if u[0] == ',' then ParseMembers(u[1..], depth, now)
        else None
  }

  const MAX_TEXT := 65536

  /** A whole document: one value, nothing after it. */
  function StrictJson(raw: string): Option<Value> {
    if raw == "" || |raw| > MAX_TEXT then None
    else
      var r := Parse(raw, 0);
      if r.None? || Skip(r.value.rest) != "" then None else Some(r.value.value)
  }

  // ---------------------------------------------------------------- the reader

  function WithItems(items: seq<Value>, r: Option<Read<seq<Value>>>): Option<Read<seq<Value>>> {
    if r.None? then None else Some(Read(items + r.value.value, r.value.rest))
  }

  lemma NoItems(r: Option<Read<seq<Value>>>)
    ensures WithItems([], r) == r
  {
    if r.Some? {
      assert [] + r.value.value == r.value.value;
    }
  }

  lemma ItemsJoin(items: seq<Value>, v: Value, r: Option<Read<seq<Value>>>)
    requires r.Some?
    ensures WithItems(items, Some(Read([v] + r.value.value, r.value.rest))) == WithItems(items + [v], r)
  {
    assert items + ([v] + r.value.value) == (items + [v]) + r.value.value;
  }

  /** The reader as it runs: loops over items and members, recursion only into values. */
  method ReadValue(text: string, depth: nat) returns (r: Option<Read<Value>>)
    ensures r == Parse(text, depth)
    decreases |text|, 1
  {
    hide ParseItems, ParseMembers, ParseText, ReadNumeral, Numeral;
    var t := Skip(text);
    if depth > MAX_DEPTH || t == "" {
      return None;
    }
    if t[0] == '[' {
      var u := Skip(t[1..]);
      if u != "" && u[0] == ']' {
        return Some(Read(List([]), u[1..]));
      }
      var items := ReadItems(t[1..], depth);
      return if items.None? then None else Some(Read(List(items.value.value), items.value.rest));
    }
    if t[0] == '{' {
      var u := Skip(t[1..]);
      if u != "" && u[0] == '}' {
        return Some(Read(Object([]), u[1..]));
      }
      var ms := ReadMembers(t[1..], depth);
      return if ms.None? then None else Some(Read(Object(ms.value.value), ms.value.rest));
    }
    if t[0] == '"' {
      var s := ParseText(t[1..]);
      return if s.None? || !SafeText(s.value.value) then None else Some(Read(Text(s.value.value), s.value.rest));
    }
    if |t| >= 4 && t[..4] == "true" {
      return Some(Read(Flag(true), t[4..]));
    }
    if |t| >= 5 && t[..5] == "false" {
      return Some(Read(Flag(false), t[5..]));
    }
    var w := Numeral(t);
    return if w == "" || ReadNumeral(w).None? then None else Some(Read(Number(ReadNumeral(w).value), t[|w|..]));
  }

  method ReadItems(t: string, depth: nat) returns (r: Option<Read<seq<Value>>>)
    ensures r == ParseItems(t, depth, 0)
    decreases |t|, 2
  {
    hide Parse;
    var items: seq<Value>, cur := [], t;
    NoItems(ParseItems(t, depth, 0));
    while true
      invariant |cur| <= |t|
      invariant ParseItems(t, depth, 0) == WithItems(items, ParseItems(cur, depth, |items|))
      decreases |cur|
    {
      if |items| >= MAX_ITEMS {
        return None;
      }
      var v := ReadValue(cur, depth + 1);
      if v.None? {
        return None;
      }
      var u := Skip(v.value.rest);
      if u == "" || (u[0] != ']' && u[0] != ',') {
        return None;
      }
      if u[0] == ']' {
        return Some(Read(items + [v.value.value], u[1..]));
      }
      ghost var more := ParseItems(u[1..], depth, |items| + 1);
      if more.Some? {
        ItemsJoin(items, v.value.value, more);
      }
      items := items + [v.value.value];
      cur := u[1..];
    }
    r := None;
  }

  method ReadMembers(t: string, depth: nat) returns (r: Option<Read<seq<Member>>>)
    ensures r == ParseMembers(t, depth, [])
    decreases |t|, 2
  {
    hide Parse, ParseName, InsertMember, ParseText;
    var ms: seq<Member>, cur := [], t;
    while true
      invariant |cur| <= |t|
      invariant ParseMembers(t, depth, []) == ParseMembers(cur, depth, ms)
      decreases |cur|
    {
      var k := ParseName(cur, ms);
      if k.None? {
        return None;
      }
      var v: Option<Read<Value>>;
      if k.value.value == EXPLANATION {
        v := ParseUnder(k.value.value, k.value.rest, depth);
      } else {
        v := ReadValue(k.value.rest, depth + 1);
      }
      if v.None? {
        return None;
      }
      ms := InsertMember(ms, Member(k.value.value, v.value.value));
      var u := Skip(v.value.rest);
      if u == "" || (u[0] != '}' && u[0] != ',') {
        return None;
      }
      cur := u[1..];
      if u[0] == '}' {
        return Some(Read(ms, cur));
      }
    }
    r := None;
  }
}

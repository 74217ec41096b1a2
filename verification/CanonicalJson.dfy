/** Canonical form: members sorted at every depth, one text for each value up to member order. */
module CanonicalJson {
  import opened Types
  import opened Price
  import opened Ordering
  import opened Json

  type Value = Json.Value

  // ----------------------------------------------------------- canonical form

  /** The members of an object in order of name. */
  function Arranged(ms: seq<Member>): seq<Member> {
    if ms == [] then [] else InsertMember(Arranged(ms[1..]), ms[0])
  }

  /** The value with the members of every object, at every depth, in order of name. */
  function Canonical(v: Value): Value
    decreases v
  {
    match v
    case Flag(_) => v
    case Number(_) => v
    case Text(_) => v
    case List(items) => List(seq(|items|, i requires 0 <= i < |items| => Canonical(items[i])))
    case Object(ms) =>
      Object(Arranged(seq(|ms|, i requires 0 <= i < |ms| => Member(ms[i].name, Canonical(ms[i].value)))))
  }

  /** Every object's members are in order of name. */
  predicate Sorted(v: Value)
    decreases v
  {
    match v
    case Flag(_) => true
    case Number(_) => true
    case Text(_) => true
    case List(items) => forall i :: 0 <= i < |items| ==> Sorted(items[i])
    case Object(ms) => Ascends(ms) && forall i :: 0 <= i < |ms| ==> Sorted(ms[i].value)
  }

  /** No object, at any depth, has two members of one name. */
  predicate Distinct(v: Value)
    decreases v
  {
    match v
    case Flag(_) => true
    case Number(_) => true
    case Text(_) => true
    case List(items) => forall i :: 0 <= i < |items| ==> Distinct(items[i])
    case Object(ms) => DistinctNames(ms) && forall i :: 0 <= i < |ms| ==> Distinct(ms[i].value)
  }

  /** Equal up to the order of members, at every depth. */
  predicate Alike(v: Value, w: Value)
    decreases v
  {
    match v
    case Flag(_) => v == w
    case Number(_) => v == w
    case Text(_) => v == w
    case List(items) =>
      w.List? && |w.items| == |items| && forall i :: 0 <= i < |items| ==> Alike(items[i], w.items[i])
    case Object(ms) =>
      && w.Object?
      && (forall i :: 0 <= i < |ms| ==> AlikeTo(ms[i], w.members))
      && (forall j :: 0 <= j < |w.members| ==> AlikeFrom(ms, w.members[j]))
  }

  /** Some member of ns is like m. */
  predicate AlikeTo(m: Member, ns: seq<Member>)
    decreases m
  {
    exists j :: 0 <= j < |ns| && ns[j].name == m.name && Alike(m.value, ns[j].value)
  }

  /** Some member of ms is like n. */
  predicate AlikeFrom(ms: seq<Member>, n: Member)
    decreases ms
  {
    exists i :: 0 <= i < |ms| && ms[i].name == n.name && Alike(ms[i].value, n.value)
  }

  function CanonicalMembers(ms: seq<Member>): (ns: seq<Member>)
    ensures |ns| == |ms| && forall i :: 0 <= i < |ns| ==> ns[i] == Member(ms[i].name, Canonical(ms[i].value))
  {
    seq(|ms|, i requires 0 <= i < |ms| => Member(ms[i].name, Canonical(ms[i].value)))
  }

  lemma CanonicalObject(ms: seq<Member>)
    ensures Canonical(Object(ms)) == Object(Arranged(CanonicalMembers(ms)))
  {
    assert CanonicalMembers(ms) == seq(|ms|, i requires 0 <= i < |ms| => Member(ms[i].name, Canonical(ms[i].value)));
  }

  lemma {:induction false} PutKeeps(ms: seq<Member>, m: Member)
    requires !HasName(ms, m.name) && Ascends(ms)
    ensures |InsertMember(ms, m)| == |ms| + 1
    ensures forall x :: x in InsertMember(ms, m) <==> x == m || x in ms
    ensures Ascends(InsertMember(ms, m))
  {
    if ms == [] {
    } else if Before(m.name, ms[0].name) {
      forall j | 1 <= j < |ms| ensures Before(m.name, ms[j].name) {
        BeforeTransitive(m.name, ms[0].name, ms[j].name);
      }
    } else {
      assert ms[0].name != m.name && !HasName(ms[1..], m.name);
      BeforeTotal(m.name, ms[0].name);
      PutKeeps(ms[1..], m);
      var rest := InsertMember(ms[1..], m);
      forall j | 0 <= j < |rest| ensures Before(ms[0].name, rest[j].name) {
        assert rest[j] in rest;
      }
      assert ms == [ms[0]] + ms[1..];
    }
  }

  lemma {:induction false} ArrangedFacts(ms: seq<Member>)
    requires DistinctNames(ms)
    ensures Ascends(Arranged(ms)) && |Arranged(ms)| == |ms| && forall x :: x in Arranged(ms) <==> x in ms
  {
    if ms != [] {
      ArrangedFacts(ms[1..]);
      var rest := Arranged(ms[1..]);
      assert !HasName(rest, ms[0].name) by {
        if HasName(rest, ms[0].name) {
          var i :| 0 <= i < |rest| && rest[i].name == ms[0].name;
          Later(ms, rest[i]);
        }
      }
      PutKeeps(rest, ms[0]);
      assert ms == [ms[0]] + ms[1..];
    }
  }

  lemma Later(ms: seq<Member>, x: Member)
    requires ms != [] && DistinctNames(ms) && x in ms[1..]
    ensures x.name != ms[0].name
  {
    var i :| 0 <= i < |ms[1..]| && ms[1..][i] == x;
    assert ms[i + 1] == x;
  }

  lemma FirstOf(a: seq<Member>, b: seq<Member>)
    requires Ascends(a) && Ascends(b) && a != [] && b != [] && forall x :: x in a <==> x in b
    ensures a[0] == b[0]
  {
    assert a[0] in b && b[0] in a;
    var i :| 0 <= i < |b| && b[i] == a[0];
    var j :| 0 <= j < |a| && a[j] == b[0];
    if i > 0 && j > 0 {
      BeforeTransitive(a[0].name, a[j].name, b[i].name);
      BeforeIrreflexive(a[0].name);
    }
  }

  lemma RestOf(a: seq<Member>, x: Member)
    requires Ascends(a) && a != []
    ensures x in a[1..] <==> x in a && x != a[0]
  {
    assert a == [a[0]] + a[1..];
    if x in a[1..] {
      var i :| 0 <= i < |a[1..]| && a[1..][i] == x;
      assert Before(a[0].name, a[i + 1].name);
      BeforeIrreflexive(x.name);
    }
  }

  /** An arrangement is determined by its members. */
  lemma {:induction false} AscendsUnique(a: seq<Member>, b: seq<Member>)
    requires Ascends(a) && Ascends(b) && forall x :: x in a <==> x in b
    ensures a == b
  {
    if a != [] {
      NeitherEmpty(b, a);
    }
    if b != [] {
      NeitherEmpty(a, b);
      FirstOf(a, b);
      forall x ensures x in a[1..] <==> x in b[1..] {
        RestOf(a, x);
        RestOf(b, x);
      }
      AscendsUnique(a[1..], b[1..]);
      assert a == [a[0]] + a[1..] && b == [b[0]] + b[1..];
    }
  }

  lemma AscendsDistinct(ms: seq<Member>)
    requires Ascends(ms)
    ensures DistinctNames(ms)
  {
    forall i, j | 0 <= i < j < |ms| ensures ms[i].name != ms[j].name {
      BeforeIrreflexive(ms[i].name);
    }
  }

  /** A value is canonical exactly when it is sorted. */
  lemma {:induction false} SortedCanonical(v: Value)
    requires Sorted(v)
    ensures Canonical(v) == v
    decreases v
  {
    match v
    case List(items) =>
      forall i | 0 <= i < |items| ensures Canonical(items[i]) == items[i] {
        SortedCanonical(items[i]);
      }
      assert Canonical(v).items == items;
    case Object(ms) =>
      forall i | 0 <= i < |ms| ensures Canonical(ms[i].value) == ms[i].value {
        SortedCanonical(ms[i].value);
      }
      CanonicalObject(ms);
      assert CanonicalMembers(ms) == ms;
      AscendsDistinct(ms);
      ArrangedFacts(ms);
      AscendsUnique(Arranged(ms), ms);
    case _ =>
  }

  lemma MembersDistinct(ms: seq<Member>)
    requires DistinctNames(ms)
    ensures DistinctNames(CanonicalMembers(ms))
  {
  }

  /** Canonical form sorts. */
  lemma {:induction false} CanonicalSorted(v: Value)
    requires Distinct(v)
    ensures Sorted(Canonical(v)) && Distinct(Canonical(v))
    decreases v
  {
    match v
    case List(items) =>
      forall i | 0 <= i < |items| ensures Sorted(Canonical(v).items[i]) && Distinct(Canonical(v).items[i]) {
        CanonicalSorted(items[i]);
      }
    case Object(ms) =>
      var ns := CanonicalMembers(ms);
      forall i | 0 <= i < |ns| ensures Sorted(ns[i].value) && Distinct(ns[i].value) {
        CanonicalSorted(ms[i].value);
      }
      CanonicalObject(ms);
      MembersDistinct(ms);
      ArrangedFacts(ns);
      AscendsDistinct(Arranged(ns));
      forall i | 0 <= i < |Arranged(ns)| ensures Sorted(Arranged(ns)[i].value) && Distinct(Arranged(ns)[i].value) {
        assert Arranged(ns)[i] in ns;
      }
    case _ =>
  }

  // ------------------------------------------------------------- member order

  lemma MemberIn(ms: seq<Member>, x: Member)
    ensures x in CanonicalMembers(ms) <==> exists i :: 0 <= i < |ms| && x == Member(ms[i].name, Canonical(ms[i].value))
  {
    var ns := CanonicalMembers(ms);
    if x in ns {
      var i :| 0 <= i < |ns| && ns[i] == x;
      assert x == Member(ms[i].name, Canonical(ms[i].value));
    }
    if i :| 0 <= i < |ms| && x == Member(ms[i].name, Canonical(ms[i].value)) {
      assert ns[i] == x;
    }
  }

  /** The object has a member of this name with the same canonical value. */
  predicate Match(m: Member, ns: seq<Member>) {
    exists j :: 0 <= j < |ns| && ns[j].name == m.name && Canonical(ns[j].value) == Canonical(m.value)
  }

  predicate Matched(ms: seq<Member>, ns: seq<Member>) {
    forall i :: 0 <= i < |ms| ==> Match(ms[i], ns)
  }

  lemma MatchIn(m: Member, ns: seq<Member>)
    ensures Match(m, ns) <==> Member(m.name, Canonical(m.value)) in CanonicalMembers(ns)
  {
    hide Canonical;
    var x := Member(m.name, Canonical(m.value));
    MemberIn(ns, x);
    if j :| 0 <= j < |ns| && ns[j].name == m.name && Canonical(ns[j].value) == Canonical(m.value) {
      assert x == Member(ns[j].name, Canonical(ns[j].value));
    }
    if x in CanonicalMembers(ns) {
      var j :| 0 <= j < |ns| && x == Member(ns[j].name, Canonical(ns[j].value));
      assert ns[j].name == m.name && Canonical(ns[j].value) == Canonical(m.value);
    }
  }

  lemma MatchedIn(ms: seq<Member>, ns: seq<Member>, x: Member)
    requires Matched(ms, ns) && x in CanonicalMembers(ms)
    ensures x in CanonicalMembers(ns)
  {
    hide Canonical, Match;
    MemberIn(ms, x);
    var i :| 0 <= i < |ms| && x == Member(ms[i].name, Canonical(ms[i].value));
    MatchIn(ms[i], ns);
  }

  lemma MatchedEqual(ms: seq<Member>, ns: seq<Member>)
    requires DistinctNames(ms) && DistinctNames(ns) && Matched(ms, ns) && Matched(ns, ms)
    ensures Canonical(Object(ms)) == Canonical(Object(ns))
  {
    CanonicalObject(ms);
    CanonicalObject(ns);
    hide Canonical, Matched, Arranged;
    MembersDistinct(ms);
    MembersDistinct(ns);
    var a, b := CanonicalMembers(ms), CanonicalMembers(ns);
    ArrangedFacts(a);
    ArrangedFacts(b);
    forall x ensures x in Arranged(a) <==> x in Arranged(b) {
      if x in a {
        MatchedIn(ms, ns, x);
      }
      if x in b {
        MatchedIn(ns, ms, x);
      }
    }
    AscendsUnique(Arranged(a), Arranged(b));
  }

  lemma EqualMatched(ms: seq<Member>, ns: seq<Member>)
    requires DistinctNames(ms) && DistinctNames(ns) && Canonical(Object(ms)) == Canonical(Object(ns))
    ensures Matched(ms, ns)
  {
    CanonicalObject(ms);
    CanonicalObject(ns);
    hide Canonical, Arranged, Match;
    MembersDistinct(ms);
    MembersDistinct(ns);
    ArrangedFacts(CanonicalMembers(ms));
    ArrangedFacts(CanonicalMembers(ns));
    forall i | 0 <= i < |ms| ensures Match(ms[i], ns) {
      var x := CanonicalMembers(ms)[i];
      assert x in CanonicalMembers(ms);
      assert x in Arranged(CanonicalMembers(ms));
      MatchIn(ms[i], ns);
    }
  }

  /** Canonical form forgets exactly the order of members, at every depth. */
  lemma {:induction false} CanonicalAlike(v: Value, w: Value)
    requires Distinct(v) && Distinct(w)
    ensures Canonical(v) == Canonical(w) <==> Alike(v, w)
    decreases v
  {
    match v
    case List(items) =>
      if w.List? && |w.items| == |items| {
        forall i | 0 <= i < |items|
          ensures Canonical(items[i]) == Canonical(w.items[i]) <==> Alike(items[i], w.items[i])
        {
          CanonicalAlike(items[i], w.items[i]);
        }
        if Canonical(v) == Canonical(w) {
          forall i | 0 <= i < |items| ensures Canonical(items[i]) == Canonical(w.items[i]) {
            assert Canonical(v).items[i] == Canonical(w).items[i];
          }
        }
      } else if w.List? {
        assert |Canonical(v).items| != |Canonical(w).items|;
      }
    case Object(ms) =>
      if w.Object? {
        forall i, j | 0 <= i < |ms| && 0 <= j < |w.members|
          ensures Canonical(ms[i].value) == Canonical(w.members[j].value) <==> Alike(ms[i].value, w.members[j].value)
        {
          CanonicalAlike(ms[i].value, w.members[j].value);
        }
        ObjectsAlike(ms, w.members);
      }
    case _ =>
  }

  /** Member by member, canonical values agree exactly when the values are alike. */
  predicate Decided(ms: seq<Member>, ns: seq<Member>) {
    forall i, j :: 0 <= i < |ms| && 0 <= j < |ns| ==>
      (Canonical(ms[i].value) == Canonical(ns[j].value) <==> Alike(ms[i].value, ns[j].value))
  }

  lemma MatchTo(ms: seq<Member>, ns: seq<Member>, i: nat)
    requires Decided(ms, ns) && i < |ms|
    ensures Match(ms[i], ns) <==> AlikeTo(ms[i], ns)
  {
    hide Canonical, Alike;
    if Match(ms[i], ns) {
      var j :| 0 <= j < |ns| && ns[j].name == ms[i].name && Canonical(ns[j].value) == Canonical(ms[i].value);
      assert Alike(ms[i].value, ns[j].value);
    }
    if AlikeTo(ms[i], ns) {
      var j :| 0 <= j < |ns| && ns[j].name == ms[i].name && Alike(ms[i].value, ns[j].value);
      assert Canonical(ns[j].value) == Canonical(ms[i].value);
    }
  }

  lemma MatchFrom(ms: seq<Member>, ns: seq<Member>, j: nat)
    requires Decided(ms, ns) && j < |ns|
    ensures Match(ns[j], ms) <==> AlikeFrom(ms, ns[j])
  {
    hide Canonical, Alike;
    if Match(ns[j], ms) {
      var i :| 0 <= i < |ms| && ms[i].name == ns[j].name && Canonical(ms[i].value) == Canonical(ns[j].value);
      assert Alike(ms[i].value, ns[j].value);
    }
    if AlikeFrom(ms, ns[j]) {
      var i :| 0 <= i < |ms| && ms[i].name == ns[j].name && Alike(ms[i].value, ns[j].value);
      assert Canonical(ms[i].value) == Canonical(ns[j].value);
    }
  }

  lemma ObjectsAlike(ms: seq<Member>, ns: seq<Member>)
    requires DistinctNames(ms) && DistinctNames(ns) && Decided(ms, ns)
    ensures Canonical(Object(ms)) == Canonical(Object(ns)) <==> Alike(Object(ms), Object(ns))
  {
    hide Canonical, Match, AlikeTo, AlikeFrom;
    forall i | 0 <= i < |ms| ensures Match(ms[i], ns) <==> AlikeTo(ms[i], ns) {
      MatchTo(ms, ns, i);
    }
    forall j | 0 <= j < |ns| ensures Match(ns[j], ms) <==> AlikeFrom(ms, ns[j]) {
      MatchFrom(ms, ns, j);
    }
    if Canonical(Object(ms)) == Canonical(Object(ns)) {
      EqualMatched(ms, ns);
      EqualMatched(ns, ms);
    }
    if Matched(ms, ns) && Matched(ns, ms) {
      MatchedEqual(ms, ns);
    }
  }


  // ------------------------------------------------------- canonical text is one

  lemma {:induction false} NumeralRead(w: string, rest: string)
    requires forall i :: 0 <= i < |w| ==> IsNumeralChar(w[i])
    requires rest == "" || !IsNumeralChar(rest[0])
    ensures Numeral(w + rest) == w
  {
    if w == "" {
      assert w + rest == rest;
    } else {
      assert w + rest == [w[0]] + (w[1..] + rest);
      NumeralRead(w[1..], rest);
    }
  }

  lemma DecimalChars(n: int)
    ensures forall i :: 0 <= i < |Decimal(n)| ==> IsNumeralChar(Decimal(n)[i])
    ensures IsDigit(Decimal(n)[0]) || Decimal(n)[0] == '-'
  {
    if n >= 0 {
      NaturalRead(n);
    } else {
      NaturalRead(-n);
    }
  }

  /** What may follow a value in a document. */
  predicate Ends(rest: string) {
    rest == "" || rest[0] == ',' || rest[0] == ']' || rest[0] == '}' || IsSpace(rest[0])
  }

  /** No value's text starts with a space or a closing bracket. */
  lemma PrintStarts(v: Value)
    ensures Print(v) != "" && !IsSpace(Print(v)[0]) && Print(v)[0] != ']' && Print(v)[0] != '}'
  {
    if v.Number? {
      DecimalChars(v.n);
    }
  }

  /** A quoted text ends where its closing quote is. */
  lemma {:induction false} EscapedEnds(s: string, t: string, r: string, q: string)
    requires Escaped(s) + "\"" + r == Escaped(t) + "\"" + q
    ensures s == t && r == q
  {
    Closes(s, r);
    Closes(t, q);
    if s != "" && t != "" {
      FirstEscaped(s, r);
      FirstEscaped(t, q);
      EscapedEnds(s[1..], t[1..], r, q);
      assert s == [s[0]] + s[1..] && t == [t[0]] + t[1..];
    }
  }

  /** Only the empty text closes at once. */
  lemma Closes(s: string, r: string)
    ensures var a := Escaped(s) + "\"" + r; a != "" && (a[0] == '"' <==> s == "") && (s == "" ==> a[1..] == r)
  {
    if s != "" {
      FirstEscaped(s, r);
    }
  }

  lemma FirstEscaped(s: string, r: string)
    requires s != ""
    ensures var a, rest := Escaped(s) + "\"" + r, Escaped(s[1..]) + "\"" + r;
            if s[0] == '"' || s[0] == '\\' then |a| >= 2 && a[0] == '\\' && a[1] == s[0] && a[2..] == rest
            else |a| >= 1 && a[0] == s[0] && a[0] != '\\' && a[1..] == rest
  {
    var mark := if s[0] == '"' || s[0] == '\\' then ['\\', s[0]] else [s[0]];
    assert Escaped(s) == mark + Escaped(s[1..]);
    hide Escaped;
    assert Escaped(s) + "\"" + r == mark + (Escaped(s[1..]) + "\"" + r);
  }

  lemma QuotedEnds(s: string, t: string, r: string, q: string)
    requires Quoted(s) + r == Quoted(t) + q
    ensures s == t && r == q
  {
    assert (Quoted(s) + r)[1..] == Escaped(s) + "\"" + r;
    assert (Quoted(t) + q)[1..] == Escaped(t) + "\"" + q;
    EscapedEnds(s, t, r, q);
  }

  lemma DecimalInjective(n: int, m: int)
    requires Decimal(n) == Decimal(m)
    ensures n == m
  {
    var i: nat, j: nat := if n < 0 then -n else n, if m < 0 then -m else m;
    NaturalRead(i);
    NaturalRead(j);
    assert n < 0 ==> Decimal(n)[0] == '-' && Decimal(n)[1..] == Natural(i);
    assert m < 0 ==> Decimal(m)[0] == '-' && Decimal(m)[1..] == Natural(j);
    assert IsDigit(Natural(i)[0]) && IsDigit(Natural(j)[0]);
  }

  lemma DecimalEnds(n: int, m: int, r: string, q: string)
    requires Decimal(n) + r == Decimal(m) + q && Ends(r) && Ends(q)
    ensures n == m && r == q
  {
    DecimalChars(n);
    DecimalChars(m);
    NumeralRead(Decimal(n), r);
    NumeralRead(Decimal(m), q);
    DecimalInjective(n, m);
    assert (Decimal(n) + r)[|Decimal(n)|..] == r && (Decimal(m) + q)[|Decimal(m)|..] == q;
  }

  /** The kind of a value, as its first character tells it. */
  function KindOf(c: char): int {
    if c == 't' then 1
    else if c == 'f' then 2
    else if c == '"' then 3
    else if c == '[' then 4
    else if c == '{' then 5
    else 0
  }

  lemma FirstTells(v: Value)
    ensures Print(v) != ""
    ensures KindOf(Print(v)[0]) == match v { case Flag(b) => (if b then 1 else 2) case Number(_) => 0 case Text(_) => 3
                                            case List(_) => 4 case Object(_) => 5 }
  {
    if v.Number? {
      DecimalChars(v.n);
    }
  }

  /** A printed value ends where it ends: no text is the text of two values, whatever follows. */
  lemma {:induction false} PrintEnds(v: Value, w: Value, r: string, q: string)
    requires Print(v) + r == Print(w) + q && Ends(r) && Ends(q)
    ensures v == w && r == q
    decreases v, 1
  {
    FirstTells(v);
    FirstTells(w);
    assert (Print(v) + r)[0] == Print(v)[0] && (Print(w) + q)[0] == Print(w)[0];
    match v
    case Flag(b) =>
      assert |Print(v)| == |Print(w)|;
      assert (Print(v) + r)[|Print(v)|..] == r && (Print(w) + q)[|Print(w)|..] == q;
    case Number(n) => DecimalEnds(n, w.n, r, q);
    case Text(s) => QuotedEnds(s, w.s, r, q);
    case List(items) =>
      assert (Print(v) + r)[1..] == Print(v)[1..] + r && (Print(w) + q)[1..] == Print(w)[1..] + q;
      ListCloses(items, r);
      ListCloses(w.items, q);
      if items != [] {
        assert Print(v)[1..] == PrintItems(items) && Print(w)[1..] == PrintItems(w.items);
        ItemsEnd(items, w.items, r, q);
      }
    case Object(ms) =>
      assert (Print(v) + r)[1..] == Print(v)[1..] + r && (Print(w) + q)[1..] == Print(w)[1..] + q;
      ObjectCloses(ms, r);
      ObjectCloses(w.members, q);
      if ms != [] {
        assert Print(v)[1..] == PrintMembers(ms) && Print(w)[1..] == PrintMembers(w.members);
        MembersEnd(ms, w.members, r, q);
      }
  }

  lemma ListCloses(items: seq<Value>, r: string)
    ensures var a := Print(List(items))[1..] + r;
            a != "" && (a[0] == ']' <==> items == []) && (items == [] ==> a[1..] == r)
  {
    if items != [] {
      PrintStarts(items[0]);
      var w := Print(List(items))[1..];
      assert w == PrintItems(items) && w[0] == Print(items[0])[0];
    }
  }

  lemma ObjectCloses(ms: seq<Member>, r: string)
    ensures var a := Print(Object(ms))[1..] + r; a != "" && (a[0] == '}' <==> ms == []) && (ms == [] ==> a[1..] == r)
  {
    if ms != [] {
      assert (Print(Object(ms))[1..] + r)[0] == '"';
    }
  }

  /** What follows the first item of a printed list. */
  function ItemsTail(items: seq<Value>, r: string): string
    requires items != []
  {
    if |items| == 1 then "]" + r else "," + PrintItems(items[1..]) + r
  }

  lemma ItemsSplit(items: seq<Value>, r: string)
    requires items != []
    ensures PrintItems(items) + r == Print(items[0]) + ItemsTail(items, r) && Ends(ItemsTail(items, r))
  {
    hide Print;
  }

  lemma {:induction false} ItemsEnd(items: seq<Value>, others: seq<Value>, r: string, q: string)
    requires items != [] && others != [] && PrintItems(items) + r == PrintItems(others) + q
    ensures items == others && r == q
    decreases items, 2
  {
    hide Print, PrintItems;
    ItemsSplit(items, r);
    ItemsSplit(others, q);
    var s, t := ItemsTail(items, r), ItemsTail(others, q);
    PrintEnds(items[0], others[0], s, t);
    if |items| == 1 {
      assert s[1..] == r && t[1..] == q && items == [items[0]] && others == [others[0]];
    } else {
      assert s[1..] == PrintItems(items[1..]) + r && t[1..] == PrintItems(others[1..]) + q;
      ItemsEnd(items[1..], others[1..], r, q);
      assert items == [items[0]] + items[1..] && others == [others[0]] + others[1..];
    }
  }

  function MembersTail(ms: seq<Member>, r: string): string
    requires ms != []
  {
    if |ms| == 1 then "}" + r else "," + PrintMembers(ms[1..]) + r
  }

  lemma MembersSplit(ms: seq<Member>, r: string)
    requires ms != []
    ensures PrintMembers(ms) + r == Quoted(ms[0].name) + (":" + (Print(ms[0].value) + MembersTail(ms, r)))
    ensures Ends(MembersTail(ms, r))
  {
    hide Print, Quoted;
  }

  lemma {:induction false} MembersEnd(ms: seq<Member>, ns: seq<Member>, r: string, q: string)
    requires ms != [] && ns != [] && PrintMembers(ms) + r == PrintMembers(ns) + q
    ensures ms == ns && r == q
    decreases ms, 2
  {
    hide Print, PrintMembers, Quoted;
    MembersSplit(ms, r);
    MembersSplit(ns, q);
    var s, t := MembersTail(ms, r), MembersTail(ns, q);
    var a, b := Print(ms[0].value) + s, Print(ns[0].value) + t;
    QuotedEnds(ms[0].name, ns[0].name, ":" + a, ":" + b);
    assert (":" + a)[1..] == a && (":" + b)[1..] == b;
    PrintEnds(ms[0].value, ns[0].value, s, t);
    if |ms| == 1 {
      assert s[1..] == r && t[1..] == q && ms == [ms[0]] && ns == [ns[0]];
    } else {
      assert s[1..] == PrintMembers(ms[1..]) + r && t[1..] == PrintMembers(ns[1..]) + q;
      MembersEnd(ms[1..], ns[1..], r, q);
      assert ms == [ms[0]] + ms[1..] && ns == [ns[0]] + ns[1..];
    }
  }

  /** Printing is injective on all values, without any limits. */
  lemma PrintInjective(v: Value, w: Value)
    requires Print(v) == Print(w)
    ensures v == w
  {
    hide Print;
    assert Print(v) + "" == Print(w) + "";
    PrintEnds(v, w, "", "");
  }

  /** Of all values alike up to member order, the canonical form is the one that is sorted at every depth. */
  lemma OneSorted(v: Value, w: Value)
    requires Distinct(v) && Distinct(w) && Sorted(w)
    ensures Sorted(Canonical(v)) && Alike(v, Canonical(v))
    ensures Alike(v, w) <==> w == Canonical(v)
  {
    hide Canonical, Alike, Distinct, Sorted;
    CanonicalSorted(v);
    SortedCanonical(Canonical(v));
    CanonicalAlike(v, Canonical(v));
    SortedCanonical(w);
    CanonicalAlike(v, w);
  }

  /** Two values have one canonical text exactly when they are equal up to the order of members, at every depth. */
  lemma OneText(v: Value, w: Value)
    requires Distinct(v) && Distinct(w)
    ensures Print(Canonical(v)) == Print(Canonical(w)) <==> Alike(v, w)
  {
    hide Print, Canonical, Alike, Distinct;
    CanonicalAlike(v, w);
    if Print(Canonical(v)) == Print(Canonical(w)) {
      PrintInjective(Canonical(v), Canonical(w));
    }
  }

  // ---------------------------------------------------------- reading what is printed

  lemma PlainChar(c: char, u: string)
    requires ' ' <= c <= '~' && c != '"' && c != '\\' && ParseText(u).Some?
    ensures ParseText([c] + u) == Some(Read([c] + ParseText(u).value.value, ParseText(u).value.rest))
  {
    assert ([c] + u)[1..] == u;
  }

  lemma EscapedChar(c: char, u: string)
    requires (c == '"' || c == '\\') && ParseText(u).Some?
    ensures ParseText(['\\', c] + u) == Some(Read([c] + ParseText(u).value.value, ParseText(u).value.rest))
  {
    assert (['\\', c] + u)[2..] == u;
  }

  lemma ClosingQuote(rest: string)
    ensures ParseText("\"" + rest) == Some(Read("", rest))
  {
    assert ("\"" + rest)[1..] == rest;
  }

  /** The printed text is read back up to its closing quote. */
  lemma {:induction false} TextRead(s: string, rest: string)
    requires Printable(s)
    ensures ParseText(Escaped(s) + "\"" + rest) == Some(Read(s, rest))
  {
    hide ParseText;
    if s == "" {
      assert Escaped(s) + "\"" + rest == "\"" + rest;
      ClosingQuote(rest);
    } else {
      TextRead(s[1..], rest);
      var u := Escaped(s[1..]) + "\"" + rest;
      assert s == [s[0]] + s[1..];
      if s[0] == '"' || s[0] == '\\' {
        EscapedChar(s[0], u);
        assert Escaped(s) + "\"" + rest == ['\\', s[0]] + u;
      } else {
        PlainChar(s[0], u);
        assert Escaped(s) + "\"" + rest == [s[0]] + u;
      }
    }
  }

  lemma QuotedRead(s: string, rest: string)
    requires Printable(s)
    ensures var t := Quoted(s) + rest; t[0] == '"' && ParseText(t[1..]) == Some(Read(s, rest)) && Skip(t) == t
  {
    TextRead(s, rest);
    assert (Quoted(s) + rest)[1..] == Escaped(s) + "\"" + rest;
  }

  lemma NotKeyword(t: string)
    requires t != "" && (IsDigit(t[0]) || t[0] == '-')
    ensures |t| >= 4 ==> t[..4] != "true"
    ensures |t| >= 5 ==> t[..5] != "false"
  {
    assert |t| >= 4 ==> t[..4][0] == t[0] && "true"[0] == 't';
    assert |t| >= 5 ==> t[..5][0] == t[0] && "false"[0] == 'f';
  }

  lemma NumberStep(t: string, w: string, n: int, depth: nat)
    requires depth <= MAX_DEPTH && t != "" && (IsDigit(t[0]) || t[0] == '-') && Numeral(t) == w && w != ""
             && ReadNumeral(w) == Some(n)
    ensures Parse(t, depth) == Some(Read(Number(n), t[|w|..]))
  {
    NotKeyword(t);
    hide ReadNumeral, Numeral;
    assert Skip(t) == t;
  }

  lemma NumberRead(n: int, rest: string, depth: nat)
    requires Fits64(n) && depth <= MAX_DEPTH && Ends(rest)
    ensures Parse(Decimal(n) + rest, depth) == Some(Read(Number(n), rest))
  {
    hide Parse, ReadNumeral, Numeral, Decimal;
    var w := Decimal(n);
    var t := w + rest;
    DecimalChars(n);
    NumeralRead(w, rest);
    PrintedIsRead(n);
    assert t[0] == w[0] && t[|w|..] == rest;
    NumberStep(t, w, n, depth);
  }

  lemma FlagRead(b: bool, rest: string, depth: nat)
    requires depth <= MAX_DEPTH
    ensures Parse(Print(Flag(b)) + rest, depth) == Some(Read(Flag(b), rest))
  {
    var t := Print(Flag(b)) + rest;
    assert Skip(t) == t;
    if b {
      assert t[..4] == "true" && t[4..] == rest;
    } else {
      assert t[..5] == "false" && t[5..] == rest;
      assert t[..4][0] == 'f' && "true"[0] == 't';
    }
  }

  lemma TextValueRead(s: string, rest: string, depth: nat)
    requires SafeText(s) && depth <= MAX_DEPTH
    ensures Parse(Quoted(s) + rest, depth) == Some(Read(Text(s), rest))
  {
    QuotedRead(s, rest);
  }

  function CanonicalItems(items: seq<Value>): (cs: seq<Value>)
    ensures |cs| == |items| && forall i :: 0 <= i < |cs| ==> cs[i] == Canonical(items[i])
  {
    seq(|items|, i requires 0 <= i < |items| => Canonical(items[i]))
  }

  lemma CanonicalList(items: seq<Value>)
    ensures Canonical(List(items)) == List(CanonicalItems(items))
  {
    assert CanonicalItems(items) == seq(|items|, i requires 0 <= i < |items| => Canonical(items[i]));
  }

  /** Parsing the text of an admitted value, its members in any order, gives the value in canonical form. */
  lemma {:induction false} ValueRead(v: Value, rest: string, depth: nat)
    requires Admitted(v, depth) && Ends(rest)
    ensures Parse(Print(v) + rest, depth) == Some(Read(Canonical(v), rest))
    decreases v, 1
  {
    match v
    case Flag(b) => FlagRead(b, rest, depth);
    case Number(n) => NumberRead(n, rest, depth);
    case Text(s) => TextValueRead(s, rest, depth);
    case List(items) => ListRead(items, rest, depth);
    case Object(ms) => ObjectRead(ms, rest, depth);
  }

  lemma EmptyList(depth: nat, rest: string)
    requires depth <= MAX_DEPTH
    ensures Parse("[]" + rest, depth) == Some(Read(List([]), rest))
  {
    var t := "[]" + rest;
    assert Skip(t) == t && t[1..] == "]" + rest;
    assert Skip(t[1..]) == t[1..] && t[1..][1..] == rest;
  }

  lemma ListStep(body: string, depth: nat, items: seq<Value>, rest: string)
    requires depth <= MAX_DEPTH && body != "" && !IsSpace(body[0]) && body[0] != ']'
    requires ParseItems(body, depth, 0) == Some(Read(items, rest))
    ensures Parse("[" + body, depth) == Some(Read(List(items), rest))
  {
    hide ParseItems;
    assert ("[" + body)[1..] == body;
    assert Skip("[" + body) == "[" + body && Skip(body) == body;
  }

  lemma {:induction false} ListRead(items: seq<Value>, rest: string, depth: nat)
    requires Admitted(List(items), depth) && Ends(rest)
    ensures Parse(Print(List(items)) + rest, depth) == Some(Read(Canonical(List(items)), rest))
    decreases items, 2
  {
    hide Parse, ParseItems, Canonical;
    CanonicalList(items);
    if items == [] {
      EmptyList(depth, rest);
      assert Print(List(items)) + rest == "[]" + rest;
      assert CanonicalItems(items) == [];
    } else {
      var body := PrintItems(items) + rest;
      assert Print(List(items)) + rest == "[" + body;
      PrintStarts(items[0]);
      assert body[0] == Print(items[0])[0];
      ItemsRead(items, rest, depth, 0);
      ListStep(body, depth, CanonicalItems(items), rest);
    }
  }

  /** Reading one item and what follows it. */
  lemma ItemStep(t: string, depth: nat, count: nat, v: Value, tail: string)
    requires count < MAX_ITEMS && Parse(t, depth + 1) == Some(Read(v, tail)) && tail != ""
    ensures tail[0] == ']' ==> ParseItems(t, depth, count) == Some(Read([v], tail[1..]))
    ensures tail[0] == ',' && ParseItems(tail[1..], depth, count + 1).Some? ==>
              var more := ParseItems(tail[1..], depth, count + 1).value;
              ParseItems(t, depth, count) == Some(Read([v] + more.value, more.rest))
  {
    hide Parse;
  }

  lemma {:induction false} ItemsRead(items: seq<Value>, rest: string, depth: nat, count: nat)
    requires items != [] && count + |items| <= MAX_ITEMS && Ends(rest)
    requires forall i :: 0 <= i < |items| ==> Admitted(items[i], depth + 1)
    ensures ParseItems(PrintItems(items) + rest, depth, count) == Some(Read(CanonicalItems(items), rest))
    decreases items, 1
  {
    hide Parse, ParseItems, Admitted, Print, Canonical;
    if |items| == 1 {
      var tail := "]" + rest;
      assert PrintItems(items) + rest == Print(items[0]) + tail;
      ValueRead(items[0], tail, depth + 1);
      ItemStep(Print(items[0]) + tail, depth, count, Canonical(items[0]), tail);
      assert tail[1..] == rest && CanonicalItems(items) == [Canonical(items[0])];
    } else {
      var next := PrintItems(items[1..]) + rest;
      var tail := "," + next;
      assert PrintItems(items) + rest == Print(items[0]) + tail;
      ValueRead(items[0], tail, depth + 1);
      assert tail[1..] == next;
      ItemsRead(items[1..], rest, depth, count + 1);
      ItemStep(Print(items[0]) + tail, depth, count, Canonical(items[0]), tail);
      assert CanonicalItems(items) == [Canonical(items[0])] + CanonicalItems(items[1..]);
    }
  }

  lemma ObjectStep(body: string, depth: nat, ms: seq<Member>, rest: string)
    requires depth <= MAX_DEPTH && body != "" && body[0] == '"' && ParseMembers(body, depth, []) == Some(Read(ms, rest))
    ensures Parse("{" + body, depth) == Some(Read(Object(ms), rest))
  {
    hide ParseMembers;
    assert ("{" + body)[1..] == body;
    assert Skip("{" + body) == "{" + body;
  }

  lemma EmptyObject(depth: nat, rest: string)
    requires depth <= MAX_DEPTH
    ensures Parse("{}" + rest, depth) == Some(Read(Object([]), rest))
  {
    var t := "{}" + rest;
    assert Skip(t) == t && t[1..] == "}" + rest;
    assert Skip(t[1..]) == t[1..] && t[1..][1..] == rest;
  }

  /** The members read, put in one after the other. */
  function InsertAll(done: seq<Member>, ms: seq<Member>): seq<Member>
    decreases ms
  {
    if ms == [] then done else InsertAll(InsertMember(done, ms[0]), ms[1..])
  }

  lemma {:induction false} InsertNames(ms: seq<Member>, m: Member, name: string)
    ensures |InsertMember(ms, m)| == |ms| + 1
    ensures HasName(InsertMember(ms, m), name) <==> m.name == name || HasName(ms, name)
  {
    assert [m][0].name == m.name;
    if ms == [] || Before(m.name, ms[0].name) {
      NamesJoin([m], ms, name);
    } else {
      InsertNames(ms[1..], m, name);
      NamesJoin([ms[0]], InsertMember(ms[1..], m), name);
      NamesJoin([ms[0]], ms[1..], name);
      assert ms == [ms[0]] + ms[1..];
    }
  }

  lemma NamesJoin(a: seq<Member>, b: seq<Member>, name: string)
    ensures HasName(a + b, name) <==> HasName(a, name) || HasName(b, name)
  {
    if i :| 0 <= i < |a| && a[i].name == name {
      assert (a + b)[i].name == name;
    }
    if i :| 0 <= i < |b| && b[i].name == name {
      assert (a + b)[|a| + i].name == name;
    }
  }

  lemma {:induction false} InsertAllFacts(done: seq<Member>, ms: seq<Member>)
    requires Ascends(done) && DistinctNames(ms) && forall i :: 0 <= i < |ms| ==> !HasName(done, ms[i].name)
    ensures Ascends(InsertAll(done, ms)) && forall x :: x in InsertAll(done, ms) <==> x in done || x in ms
    decreases ms
  {
    if ms != [] {
      var now, rest := InsertMember(done, ms[0]), ms[1..];
      PutKeeps(done, ms[0]);
      forall i | 0 <= i < |rest| ensures !HasName(now, rest[i].name) {
        InsertNames(done, ms[0], rest[i].name);
        assert rest[i] == ms[i + 1];
      }
      InsertAllFacts(now, rest);
      assert ms == [ms[0]] + rest;
    }
  }

  /** Inserting one after the other is sorting. */
  lemma InsertedArranged(ms: seq<Member>)
    requires DistinctNames(ms)
    ensures InsertAll([], ms) == Arranged(ms)
  {
    InsertAllFacts([], ms);
    ArrangedFacts(ms);
    AscendsUnique(InsertAll([], ms), Arranged(ms));
  }

  lemma {:induction false} ObjectRead(ms: seq<Member>, rest: string, depth: nat)
    requires Admitted(Object(ms), depth) && Ends(rest)
    ensures Parse(Print(Object(ms)) + rest, depth) == Some(Read(Canonical(Object(ms)), rest))
    decreases ms, 3
  {
    hide Parse, ParseMembers, Canonical, CanonicalMembers, InsertAll;
    CanonicalObject(ms);
    if ms == [] {
      EmptyObject(depth, rest);
      assert Print(Object(ms)) + rest == "{}" + rest;
      assert CanonicalMembers(ms) == [];
    } else {
      var body := PrintMembers(ms) + rest;
      assert Print(Object(ms)) + rest == "{" + body;
      MembersStart(ms, rest);
      MembersRead([], ms, rest, depth);
      MembersDistinct(ms);
      InsertedArranged(CanonicalMembers(ms));
      ObjectStep(body, depth, Arranged(CanonicalMembers(ms)), rest);
    }
  }

  lemma MembersStart(ms: seq<Member>, rest: string)
    requires ms != []
    ensures PrintMembers(ms) + rest != "" && (PrintMembers(ms) + rest)[0] == '"'
  {
    hide Print, Escaped;
  }

  lemma NameRead(ms: seq<Member>, name: string, rest: string)
    requires SafeName(name) && |ms| < MAX_MEMBERS && !HasName(ms, name)
    ensures ParseName(Quoted(name) + ":" + rest, ms) == Some(Read(name, rest))
  {
    QuotedRead(name, ":" + rest);
    assert Quoted(name) + ":" + rest == Quoted(name) + (":" + rest);
    assert (":" + rest)[1..] == rest;
    hide ParseText, SafeName, HasName;
  }

  lemma {:induction false} UnderRead(m: Member, rest: string, depth: nat)
    requires AdmittedMember(m, depth) && Ends(rest)
    ensures ParseUnder(m.name, Print(m.value) + rest, depth) == Some(Read(Canonical(m.value), rest))
    decreases m, 1
  {
    if m.name == EXPLANATION {
      QuotedRead(m.value.s, rest);
    } else {
      ValueRead(m.value, rest, depth + 1);
    }
  }

  /** Reading one member and what follows it. */
  lemma MemberStep(t: string, depth: nat, done: seq<Member>, m: Member, body: string, tail: string)
    requires ParseName(t, done) == Some(Read(m.name, body))
             && ParseUnder(m.name, body, depth) == Some(Read(m.value, tail)) && tail != ""
    ensures tail[0] == '}' ==> ParseMembers(t, depth, done) == Some(Read(InsertMember(done, m), tail[1..]))
    ensures tail[0] == ',' ==> ParseMembers(t, depth, done) == ParseMembers(tail[1..], depth, InsertMember(done, m))
  {
    hide ParseName, ParseUnder, InsertMember;
  }

  /** Reading one printed member and what follows it. */
  lemma {:induction false} MemberRead(done: seq<Member>, m: Member, tail: string, depth: nat)
    requires |done| < MAX_MEMBERS && AdmittedMember(m, depth) && Ends(tail) && tail != "" && !HasName(done, m.name)
    ensures var t, now := Quoted(m.name) + ":" + (Print(m.value) + tail),
            InsertMember(done, Member(m.name, Canonical(m.value)));
            && (tail[0] == '}' ==> ParseMembers(t, depth, done) == Some(Read(now, tail[1..])))
            && (tail[0] == ',' ==> ParseMembers(t, depth, done) == ParseMembers(tail[1..], depth, now))
    decreases m, 2
  {
    hide ParseMembers, ParseUnder, ParseName, Print, Quoted, HasName, Canonical;
    NameRead(done, m.name, Print(m.value) + tail);
    UnderRead(m, tail, depth);
    MemberStep(Quoted(m.name) + ":" + (Print(m.value) + tail), depth, done, Member(m.name, Canonical(m.value)),
               Print(m.value) + tail, tail);
  }

  lemma {:induction false} MembersRead(done: seq<Member>, ms: seq<Member>, rest: string, depth: nat)
    requires ms != [] && |done| + |ms| <= MAX_MEMBERS && Ends(rest) && DistinctNames(ms)
    requires forall i :: 0 <= i < |ms| ==> AdmittedMember(ms[i], depth) && !HasName(done, ms[i].name)
    ensures ParseMembers(PrintMembers(ms) + rest, depth, done)
            == Some(Read(InsertAll(done, CanonicalMembers(ms)), rest))
    decreases ms, 2
  {
    hide ParseMembers, Print, Quoted, AdmittedMember, HasName, InsertMember, Canonical;
    var m, cs := ms[0], CanonicalMembers(ms);
    var now := InsertMember(done, cs[0]);
    InsertNames(done, cs[0], m.name);
    if |ms| == 1 {
      var tail := "}" + rest;
      MemberRead(done, m, tail, depth);
      assert PrintMembers(ms) + rest == Quoted(m.name) + ":" + (Print(m.value) + tail);
      assert tail[1..] == rest && InsertAll(now, cs[1..]) == now;
    } else {
      var next := PrintMembers(ms[1..]) + rest;
      var tail := "," + next;
      MemberRead(done, m, tail, depth);
      assert PrintMembers(ms) + rest == Quoted(m.name) + ":" + (Print(m.value) + tail);
      assert tail[1..] == next;
      assert cs[1..] == CanonicalMembers(ms[1..]);
      forall i | 0 <= i < |ms[1..]| ensures !HasName(now, ms[1..][i].name) {
        InsertNames(done, cs[0], ms[i + 1].name);
      }
      MembersRead(now, ms[1..], rest, depth);
    }
  }

  // ----------------------------------------------------------------- what is accepted

  /** What the parser accepts is within its limits, every object's members in order and without repeats. */
  lemma {:induction false} ParseAdmits(text: string, depth: nat)
    requires Parse(text, depth).Some?
    ensures Admitted(Parse(text, depth).value.value, depth) && Sorted(Parse(text, depth).value.value)
    decreases |text|, 1
  {
    hide ParseItems, ParseMembers, ParseText, ReadNumeral, Numeral;
    var t := Skip(text);
    if t[0] == '[' {
      if ParseItems(t[1..], depth, 0).Some? {
        ItemsAdmit(t[1..], depth, 0);
      }
    } else if t[0] == '{' {
      if ParseMembers(t[1..], depth, []).Some? {
        MembersAdmit(t[1..], depth, []);
        AscendsDistinct(ParseMembers(t[1..], depth, []).value.value);
      }
    } else if t[0] != '"' && ReadNumeral(Numeral(t)).Some? {
      ReadIsPrinted(Numeral(t));
    }
  }

  lemma {:induction false} ItemsAdmit(t: string, depth: nat, count: nat)
    requires ParseItems(t, depth, count).Some?
    ensures var items := ParseItems(t, depth, count).value.value;
            count + |items| <= MAX_ITEMS && forall i :: 0 <= i < |items| ==>
              Admitted(items[i], depth + 1) && Sorted(items[i])
    decreases |t|, 2
  {
    hide Parse, Admitted, Sorted;
    ParseAdmits(t, depth + 1);
    var u := Skip(Parse(t, depth + 1).value.rest);
    if u[0] == ',' {
      ItemsAdmit(u[1..], depth, count + 1);
    }
  }

  lemma {:induction false} MembersAdmit(t: string, depth: nat, ms: seq<Member>)
    requires ParseMembers(t, depth, ms).Some? && |ms| <= MAX_MEMBERS
    requires Ascends(ms) && forall i :: 0 <= i < |ms| ==> AdmittedMember(ms[i], depth) && Sorted(ms[i].value)
    ensures var now := ParseMembers(t, depth, ms).value.value;
            && |now| <= MAX_MEMBERS && Ascends(now)
            && forall i :: 0 <= i < |now| ==> AdmittedMember(now[i], depth) && Sorted(now[i].value)
    decreases |t|, 3
  {
    hide ParseName, ParseUnder, AdmittedMember, InsertMember, Sorted;
    var k := ParseName(t, ms).value;
    var v := ParseUnder(k.value, k.rest, depth).value;
    var m := Member(k.value, v.value);
    NameAdmits(t, ms);
    UnderAdmits(k.value, k.rest, depth);
    PutKeeps(ms, m);
    var now := InsertMember(ms, m);
    forall i | 0 <= i < |now| ensures AdmittedMember(now[i], depth) && Sorted(now[i].value) {
      assert now[i] in now;
    }
    var u := Skip(v.rest);
    if u[0] == ',' {
      MembersAdmit(u[1..], depth, now);
    }
  }

  lemma NameAdmits(t: string, ms: seq<Member>)
    requires ParseName(t, ms).Some?
    ensures SafeName(ParseName(t, ms).value.value) && |ms| < MAX_MEMBERS && !HasName(ms, ParseName(t, ms).value.value)
  {
    hide ParseText, SafeName, HasName;
  }

  lemma {:induction false} UnderAdmits(name: string, text: string, depth: nat)
    requires ParseUnder(name, text, depth).Some? && SafeName(name)
    ensures AdmittedMember(Member(name, ParseUnder(name, text, depth).value.value), depth)
    ensures Sorted(ParseUnder(name, text, depth).value.value)
    decreases |text|, 2
  {
    hide ParseText, SafeName;
    if name != EXPLANATION {
      ParseAdmits(text, depth + 1);
    }
  }

  // -------------------------------------------------------------------- sizes

  /** Printing a text read from input takes no more than the input it was read from. */
  lemma {:induction false} TextShrinks(t: string)
    requires ParseText(t).Some?
    ensures |Escaped(ParseText(t).value.value)| + 1 <= |t| - |ParseText(t).value.rest|
  {
    if t[0] == '"' {
    } else if t[0] != '\\' {
      TextShrinks(t[1..]);
      EscapedStep(t[0], ParseText(t[1..]).value.value);
    } else if |t| >= 2 && SimpleEscape(t[1]).Some? {
      TextShrinks(t[2..]);
      EscapedStep(SimpleEscape(t[1]).value, ParseText(t[2..]).value.value);
    } else {
      TextShrinks(t[6..]);
      EscapedStep(ParseText(t).value.value[0], ParseText(t[6..]).value.value);
    }
  }

  lemma EscapedStep(c: char, s: string)
    ensures |Escaped([c] + s)| == (if c == '"' || c == '\\' then 2 else 1) + |Escaped(s)|
  {
    assert ([c] + s)[0] == c && ([c] + s)[1..] == s;
  }

  /** The length of a member's text, with its colon and the mark after it. */
  function MemberSize(m: Member): nat {
    |Quoted(m.name)| + |Print(m.value)| + 2
  }

  function MembersSize(ms: seq<Member>): nat {
    if ms == [] then 0 else MemberSize(ms[0]) + MembersSize(ms[1..])
  }

  lemma {:induction false} MembersLength(ms: seq<Member>)
    requires ms != []
    ensures |PrintMembers(ms)| == MembersSize(ms)
  {
    hide Print, Quoted;
    if |ms| == 1 {
      assert MembersSize(ms[1..]) == 0;
    } else {
      MembersLength(ms[1..]);
    }
  }

  lemma {:induction false} InsertSize(ms: seq<Member>, m: Member)
    ensures MembersSize(InsertMember(ms, m)) == MembersSize(ms) + MemberSize(m)
  {
    hide MemberSize;
    if ms == [] || Before(m.name, ms[0].name) {
      assert ([m] + ms)[1..] == ms;
    } else {
      InsertSize(ms[1..], m);
      assert ([ms[0]] + InsertMember(ms[1..], m))[1..] == InsertMember(ms[1..], m);
    }
  }

  /** The text of a value read from input is no longer than the input it was read from. */
  lemma {:induction false} ParseShrinks(text: string, depth: nat)
    requires Parse(text, depth).Some?
    ensures |Print(Parse(text, depth).value.value)| <= |text| - |Parse(text, depth).value.rest|
    decreases |text|, 1
  {
    hide ParseItems, ParseMembers, ParseText, ReadNumeral, Numeral;
    var t := Skip(text);
    if t[0] == '[' {
      if ParseItems(t[1..], depth, 0).Some? {
        ItemsShrink(t[1..], depth, 0);
      }
    } else if t[0] == '{' {
      if ParseMembers(t[1..], depth, []).Some? {
        MembersShrink(t[1..], depth, []);
      }
    } else if t[0] == '"' {
      if ParseText(t[1..]).Some? {
        TextShrinks(t[1..]);
      }
    } else if ReadNumeral(Numeral(t)).Some? {
      ReadIsPrinted(Numeral(t));
    }
  }

  lemma {:induction false} ItemsShrink(t: string, depth: nat, count: nat)
    requires ParseItems(t, depth, count).Some?
    ensures var r := ParseItems(t, depth, count).value;
            r.value != [] && |PrintItems(r.value)| <= |t| - |r.rest|
    decreases |t|, 2
  {
    hide Parse, Print;
    ParseShrinks(t, depth + 1);
    var v := Parse(t, depth + 1).value;
    var u := Skip(v.rest);
    if u[0] == ',' {
      ItemsShrink(u[1..], depth, count + 1);
      var more := ParseItems(u[1..], depth, count + 1).value.value;
      assert ([v.value] + more)[1..] == more;
    }
  }

  lemma NameShrinks(t: string, ms: seq<Member>)
    requires ParseName(t, ms).Some?
    ensures |Quoted(ParseName(t, ms).value.value)| + 1 <= |t| - |ParseName(t, ms).value.rest|
  {
    hide ParseText, SafeName, HasName, Escaped;
    TextShrinks(Skip(t)[1..]);
  }

  lemma {:induction false} UnderShrinks(name: string, text: string, depth: nat)
    requires ParseUnder(name, text, depth).Some?
    ensures |Print(ParseUnder(name, text, depth).value.value)| <= |text| - |ParseUnder(name, text, depth).value.rest|
    decreases |text|, 2
  {
    hide ParseText, Parse, Escaped;
    if name != EXPLANATION {
      ParseShrinks(text, depth + 1);
    } else {
      TextShrinks(Skip(text)[1..]);
    }
  }

  lemma {:induction false} MembersShrink(t: string, depth: nat, ms: seq<Member>)
    requires ParseMembers(t, depth, ms).Some?
    ensures var r := ParseMembers(t, depth, ms).value;
            r.value != [] && |PrintMembers(r.value)| <= MembersSize(ms) + |t| - |r.rest|
    decreases |t|, 3
  {
    hide ParseName, ParseUnder, InsertMember, MembersSize, Print, Quoted, PrintMembers;
    var k := ParseName(t, ms).value;
    var v := ParseUnder(k.value, k.rest, depth).value;
    var m := Member(k.value, v.value);
    NameShrinks(t, ms);
    UnderShrinks(k.value, k.rest, depth);
    InsertSize(ms, m);
    InsertNames(ms, m, k.value);
    var now := InsertMember(ms, m);
    var u := Skip(v.rest);
    if u[0] == ',' {
      MembersShrink(u[1..], depth, now);
    } else {
      MembersLength(now);
    }
  }

  // ---------------------------------------------------- other texts of a value

  /** The ways to write one character of a text; codes outside ASCII are all read as the mark that no rule admits. */
  predicate Spells(u: string, c: char) {
    || (u == [c] && ' ' <= c && c != '"' && c != '\\')
    || (|u| == 2 && u[0] == '\\'
        && (c, u[1]) in {('"', '"'), ('\\', '\\'), ('/', '/'), (8 as char, 'b'), (12 as char, 'f'), ('\n', 'n'),
                         ('\r', 'r'), ('\t', 't')})
    || (|u| == 6 && u[0] == '\\' && u[1] == 'u' && (forall i :: 2 <= i < 6 ==> HexDigit(u[i]).Some?)
        && var code := HexDigit(u[2]).value * 4096 + HexDigit(u[3]).value * 256 + HexDigit(u[4]).value * 16
                       + HexDigit(u[5]).value;
           c == if code < 128 then code as char else 127 as char)
  }

  predicate AllSpelled(us: seq<string>, s: string) {
    |us| == |s| && forall i :: 0 <= i < |us| ==> Spells(us[i], s[i])
  }

  function Concat(us: seq<string>): string {
    if us == [] then "" else us[0] + Concat(us[1..])
  }

  lemma SpelledChar(u: string, c: char, t: string)
    requires Spells(u, c) && ParseText(t).Some?
    ensures ParseText(u + t) == Some(Read([c] + ParseText(t).value.value, ParseText(t).value.rest))
  {
    assert (u + t)[|u|..] == t;
    assert forall i :: 0 <= i < |u| ==> (u + t)[i] == u[i];
  }

  /** However its characters are written, a text is read as those characters. */
  lemma {:induction false} TextSpelled(us: seq<string>, s: string, rest: string)
    requires AllSpelled(us, s)
    ensures ParseText(Concat(us) + "\"" + rest) == Some(Read(s, rest))
  {
    hide ParseText, Spells;
    if us == [] {
      assert Concat(us) + "\"" + rest == "\"" + rest;
      ClosingQuote(rest);
    } else {
      TextSpelled(us[1..], s[1..], rest);
      SpelledChar(us[0], s[0], Concat(us[1..]) + "\"" + rest);
      assert Concat(us) + "\"" + rest == us[0] + (Concat(us[1..]) + "\"" + rest);
      assert s == [s[0]] + s[1..];
    }
  }

  /** The first character of a text that is read, and how it was written. */
  lemma FirstSpelled(t: string) returns (u: string)
    requires ParseText(t).Some? && t[0] != '"'
    ensures u <= t && u != "" && ParseText(t[|u|..]).Some? && ParseText(t).value.value != ""
    ensures Spells(u, ParseText(t).value.value[0])
    ensures ParseText(t).value.value[1..] == ParseText(t[|u|..]).value.value
    ensures ParseText(t).value.rest == ParseText(t[|u|..]).value.rest
  {
    u := if t[0] != '\\' then t[..1] else if |t| >= 2 && SimpleEscape(t[1]).Some? then t[..2] else t[..6];
  }

  lemma EmptySpelled(t: string)
    requires ParseText(t).Some? && t[0] == '"'
    ensures ParseText(t).value.value == "" && t == "\"" + ParseText(t).value.rest
  {
  }

  lemma SpelledOn(us: seq<string>, s: string, u: string, c: char, rest: string)
    requires AllSpelled(us, s) && Spells(u, c)
    ensures AllSpelled([u] + us, [c] + s)
    ensures Concat([u] + us) + "\"" + rest == u + (Concat(us) + "\"" + rest)
  {
    hide Spells;
    assert ([u] + us)[1..] == us;
  }

  /** Whatever is read as a text was written so. */
  lemma {:induction false} TextWritten(t: string) returns (us: seq<string>)
    requires ParseText(t).Some?
    ensures AllSpelled(us, ParseText(t).value.value)
    ensures t == Concat(us) + "\"" + ParseText(t).value.rest
    decreases |t|
  {
    hide ParseText, Spells, Concat, AllSpelled;
    TextShrinks(t);
    if t[0] == '"' {
      EmptySpelled(t);
      us := [];
      NothingSpelled(ParseText(t).value.rest);
    } else {
      var u := FirstSpelled(t);
      var more := TextWritten(t[|u|..]);
      us := [u] + more;
      var s := ParseText(t).value.value;
      SpelledOn(more, s[1..], u, s[0], ParseText(t).value.rest);
      assert s == [s[0]] + s[1..];
      assert t == u + t[|u|..];
    }
  }

  lemma NothingSpelled(rest: string)
    ensures AllSpelled([], "") && Concat([]) + "\"" + rest == "\"" + rest
  {
  }

  predicate Spaces(w: string) {
    forall i :: 0 <= i < |w| ==> w[i] in {' ', '\t', '\n', '\r'}
  }

  lemma {:induction false} SpacesSkipped(w: string, t: string)
    requires Spaces(w)
    ensures Skip(w + t) == Skip(t)
  {
    if w == "" {
      assert w + t == t;
    } else {
      SpacesSkipped(w[1..], t);
      assert (w + t)[1..] == w[1..] + t;
    }
  }

  /** White space before a value, a name or a value under a name changes nothing. */
  lemma SpaceBefore(w: string, t: string, depth: nat, ms: seq<Member>, name: string)
    requires Spaces(w)
    ensures Parse(w + t, depth) == Parse(t, depth) && ParseName(w + t, ms) == ParseName(t, ms)
    ensures ParseUnder(name, w + t, depth) == ParseUnder(name, t, depth)
  {
    hide ParseItems, ParseMembers, ParseText, ReadNumeral, Numeral, HasName, SafeName;
    SpacesSkipped(w, t);
  }

  /** A document may be set in white space. */
  lemma SpaceAround(v: Value, w: string, z: string)
    requires Admitted(v, 0) && Spaces(w) && Spaces(z) && |w + Print(v) + z| <= MAX_TEXT
    ensures StrictJson(w + Print(v) + z) == Some(Canonical(v))
  {
    hide Parse, Admitted, Print, Canonical;
    assert w + Print(v) + z == w + (Print(v) + z);
    SpaceBefore(w, Print(v) + z, 0, [], "");
    ValueRead(v, z, 0);
    SpacesSkipped(z, "");
    assert z + "" == z;
  }

  // ----------------------------------------------------------------- theorems

  /**
   * Parsing the text of an admitted value, its members in any order at any depth,
   * gives the value in canonical form.
   */
  lemma ReadCanonical(v: Value)
    requires Admitted(v, 0) && |Print(v)| <= MAX_TEXT
    ensures StrictJson(Print(v)) == Some(Canonical(v))
  {
    PrintStarts(v);
    ValueRead(v, "", 0);
    assert Print(v) + "" == Print(v);
  }

  /** Parsing the canonical text of any admitted value that fits the size limit gives back the value. */
  lemma RoundTrip(v: Value)
    requires Admitted(v, 0) && Sorted(v) && |Print(v)| <= MAX_TEXT
    ensures StrictJson(Print(v)) == Some(v)
  {
    ReadCanonical(v);
    SortedCanonical(v);
  }

  /**
   * Whatever form an accepted document comes in, its canonical text is no longer and
   * is read back as the same value.
   */
  lemma CanonicalOnce(raw: string)
    requires StrictJson(raw).Some?
    ensures |Print(StrictJson(raw).value)| <= |raw|
    ensures StrictJson(Print(StrictJson(raw).value)) == StrictJson(raw)
  {
    ParseAdmits(raw, 0);
    ParseShrinks(raw, 0);
    hide Parse, Print;
    RoundTrip(StrictJson(raw).value);
  }

  /** Admitted values have no repeated names, so `OneText` speaks of all of them. */
  lemma {:induction false} AdmittedDistinct(v: Value, depth: nat)
    requires Admitted(v, depth)
    ensures Distinct(v)
    decreases v
  {
    match v
    case List(items) =>
      forall i | 0 <= i < |items| ensures Distinct(items[i]) {
        AdmittedDistinct(items[i], depth + 1);
      }
    case Object(ms) =>
      forall i | 0 <= i < |ms| ensures Distinct(ms[i].value) {
        assert AdmittedMember(ms[i], depth);
        if ms[i].name != EXPLANATION {
          AdmittedDistinct(ms[i].value, depth + 1);
        }
      }
    case _ =>
  }

  /** The texts of two admitted values are read as one value exactly when the values differ in member order alone. */
  lemma SameReading(v: Value, w: Value)
    requires Admitted(v, 0) && Admitted(w, 0) && |Print(v)| <= MAX_TEXT && |Print(w)| <= MAX_TEXT
    ensures StrictJson(Print(v)) == StrictJson(Print(w)) <==> Alike(v, w)
  {
    hide Admitted, Print, StrictJson, Canonical, Alike, Distinct;
    AdmittedDistinct(v, 0);
    AdmittedDistinct(w, 0);
    ReadCanonical(v);
    ReadCanonical(w);
    CanonicalAlike(v, w);
  }

  // -------------------------------------------------------------- the printer

  /** What the backend's printer accepts: printable texts, 64-bit integers, and explanations by their own rule. */
  predicate Encodable(v: Value)
    decreases v
  {
    match v
    case Flag(_) => true
    case Number(n) => Fits64(n)
    case Text(s) => Printable(s)
    case List(items) => forall i :: 0 <= i < |items| ==> Encodable(items[i])
    case Object(ms) => forall i :: 0 <= i < |ms| ==> EncodableMember(ms[i])
  }

  predicate EncodableMember(m: Member)
    decreases m
  {
    && Printable(m.name)
    && if m.name == EXPLANATION then m.value.Text? && SafeExplanation(m.value.s) else Encodable(m.value)
  }

  function Field(m: Member): string {
    Quoted(m.name) + ":" + Print(m.value)
  }

  /** The first n fields, joined by commas. */
  function Joined(ms: seq<Member>, n: nat): string
    requires n <= |ms|
  {
    if n == 0 then "" else Joined(ms, n - 1) + (if n > 1 then "," else "") + Field(ms[n - 1])
  }

  lemma {:induction false} JoinedMembers(ms: seq<Member>, n: nat)
    requires 0 < n <= |ms|
    ensures PrintMembers(ms) == Joined(ms, n) + if n == |ms| then "}" else "," + PrintMembers(ms[n..])
  {
    hide Print, Quoted;
    if n == 1 {
      assert Joined(ms, 1) == Field(ms[0]);
    } else {
      JoinedMembers(ms, n - 1);
      var rest := ms[n - 1..];
      assert rest[0] == ms[n - 1] && rest[1..] == ms[n..];
      assert PrintMembers(rest) == Field(rest[0]) + if |rest| == 1 then "}" else "," + PrintMembers(rest[1..]);
    }
  }

  /** The first n items, joined by commas. */
  function Listed(items: seq<Value>, n: nat): string
    requires n <= |items|
  {
    if n == 0 then "" else Listed(items, n - 1) + (if n > 1 then "," else "") + Print(items[n - 1])
  }

  lemma {:induction false} ListedItems(items: seq<Value>, n: nat)
    requires 0 < n <= |items|
    ensures PrintItems(items) == Listed(items, n) + if n == |items| then "]" else "," + PrintItems(items[n..])
  {
    hide Print;
    if n == 1 {
      assert Listed(items, 1) == Print(items[0]);
    } else {
      ListedItems(items, n - 1);
      var rest := items[n - 1..];
      assert rest[0] == items[n - 1] && rest[1..] == items[n..];
      assert PrintItems(rest) == Print(rest[0]) + if |rest| == 1 then "]" else "," + PrintItems(rest[1..]);
    }
  }

  /** Sorting raw members and then making their values canonical is the same as the other way round. */
  lemma ArrangedCanonical(ms: seq<Member>)
    requires DistinctNames(ms)
    ensures CanonicalMembers(Arranged(ms)) == Arranged(CanonicalMembers(ms))
  {
    hide Canonical, Arranged;
    ArrangedFacts(ms);
    MembersDistinct(ms);
    ArrangedFacts(CanonicalMembers(ms));
    var a, b := CanonicalMembers(Arranged(ms)), Arranged(CanonicalMembers(ms));
    forall x ensures x in a <==> x in b {
      MemberIn(Arranged(ms), x);
      MemberIn(ms, x);
      if i :| 0 <= i < |ms| && x == Member(ms[i].name, Canonical(ms[i].value)) {
        assert ms[i] in Arranged(ms);
      }
      if i :| 0 <= i < |Arranged(ms)| && x == Member(Arranged(ms)[i].name, Canonical(Arranged(ms)[i].value)) {
        assert Arranged(ms)[i] in ms;
      }
    }
    AscendsUnique(a, b);
  }

  /**
   * The backend's printer as it runs: members are put into a sorted table, then
   * printed one after the other, values recursively. It refuses exactly what is
   * not encodable, and otherwise gives the canonical text.
   */
  method Encode(v: Value) returns (r: Option<string>)
    requires Distinct(v)
    ensures r == if Encodable(v) then Some(Print(Canonical(v))) else None
    decreases v
  {
    match v {
      case Flag(b) => r := Some(if b then "true" else "false");
      case Number(n) => r := if Fits64(n) then Some(Decimal(n)) else None;
      case Text(s) => r := if Printable(s) then Some(Quoted(s)) else None;
      case List(items) => r := EncodeList(items);
      case Object(ms) => r := EncodeObject(ms);
    }
  }

  method EncodeList(items: seq<Value>) returns (r: Option<string>)
    requires Distinct(List(items))
    ensures r == if Encodable(List(items)) then Some(Print(Canonical(List(items)))) else None
    decreases items
  {
    hide Print, Canonical, Encodable;
    ghost var cs := CanonicalItems(items);
    var text := "";
    for n := 0 to |items|
      invariant forall i :: 0 <= i < n ==> Encodable(items[i])
      invariant text == Listed(cs, n)
    {
      var item := Encode(items[n]);
      if item.None? {
        ListRefused(items, n);
        return None;
      }
      text := text + (if n > 0 then "," else "") + item.value;
    }
    ListPrinted(items);
    r := Some("[" + text + "]");
  }

  lemma ListRefused(items: seq<Value>, n: nat)
    requires n < |items| && !Encodable(items[n])
    ensures !Encodable(List(items))
  {
  }

  lemma ListPrinted(items: seq<Value>)
    requires forall i :: 0 <= i < |items| ==> Encodable(items[i])
    ensures Encodable(List(items))
    ensures Print(Canonical(List(items))) == "[" + Listed(CanonicalItems(items), |items|) + "]"
  {
    CanonicalList(items);
    if items != [] {
      ListedItems(CanonicalItems(items), |items|);
    }
    hide Canonical;
  }

  /** The sorted table. */
  method SortMembers(ms: seq<Member>) returns (table: seq<Member>)
    requires DistinctNames(ms)
    ensures table == Arranged(ms)
  {
    hide InsertMember, Arranged;
    table := [];
    for n := 0 to |ms|
      invariant table == InsertAll([], ms[..n])
    {
      InsertNext([], ms, n);
      table := InsertMember(table, ms[n]);
    }
    assert ms[..|ms|] == ms;
    InsertedArranged(ms);
  }

  method EncodeMember(m: Member) returns (r: Option<string>)
    requires Distinct(m.value)
    ensures r == if EncodableMember(m) then Some(Field(Member(m.name, Canonical(m.value)))) else None
    decreases m
  {
    hide Print, Canonical, Encodable, Distinct, Quoted, Printable, SafeExplanation;
    var value: Option<string>;
    if m.name == EXPLANATION {
      value := if m.value.Text? && SafeExplanation(m.value.s) then Some(Quoted(m.value.s)) else None;
      TextPrinted(m.value);
    } else {
      value := Encode(m.value);
    }
    r := if !Printable(m.name) || value.None? then None else Some(Quoted(m.name) + ":" + value.value);
  }

  method EncodeObject(ms: seq<Member>) returns (r: Option<string>)
    requires Distinct(Object(ms))
    ensures r == if Encodable(Object(ms)) then Some(Print(Canonical(Object(ms)))) else None
    decreases ms
  {
    hide Print, Canonical, Encodable, EncodableMember, Distinct, Field, Arranged;
    ObjectDistinct(ms);
    var table := SortMembers(ms);
    ArrangedFacts(ms);
    ghost var cs := CanonicalMembers(table);
    var text := "";
    for n := 0 to |table|
      invariant forall i :: 0 <= i < n ==> EncodableMember(table[i])
      invariant text == Joined(cs, n)
    {
      assert table[n] in ms;
      ghost var at :| 0 <= at < |ms| && ms[at] == table[n];
      var field := EncodeMember(table[n]);
      if field.None? {
        ObjectRefused(ms, table[n]);
        return None;
      }
      text := text + (if n > 0 then "," else "") + field.value;
    }
    ObjectPrinted(ms, table);
    r := Some("{" + text + "}");
  }

  lemma ObjectDistinct(ms: seq<Member>)
    requires Distinct(Object(ms))
    ensures DistinctNames(ms) && forall m :: m in ms ==> Distinct(m.value)
  {
  }

  lemma {:induction false} InsertNext(done: seq<Member>, ms: seq<Member>, n: nat)
    requires n < |ms|
    ensures InsertAll(done, ms[..n + 1]) == InsertMember(InsertAll(done, ms[..n]), ms[n])
    decreases n
  {
    hide InsertMember;
    if n == 0 {
      assert ms[..1] == [ms[0]] && ms[..0] == [];
      assert InsertAll(InsertMember(done, ms[0]), []) == InsertMember(done, ms[0]);
    } else {
      InsertNext(InsertMember(done, ms[0]), ms[1..], n - 1);
      assert ms[..n + 1][1..] == ms[1..][..n] && ms[..n][1..] == ms[1..][..n - 1];
    }
  }

  lemma TextPrinted(v: Value)
    ensures v.Text? ==> Print(Canonical(v)) == Quoted(v.s)
  {
  }

  lemma ObjectRefused(ms: seq<Member>, m: Member)
    requires m in ms && !EncodableMember(m)
    ensures !Encodable(Object(ms))
  {
  }

  lemma ObjectPrinted(ms: seq<Member>, table: seq<Member>)
    requires DistinctNames(ms) && table == Arranged(ms) && forall i :: 0 <= i < |table| ==> EncodableMember(table[i])
    ensures Encodable(Object(ms))
    ensures Print(Canonical(Object(ms))) == "{" + Joined(CanonicalMembers(table), |table|) + "}"
  {
    hide Canonical, EncodableMember, Quoted, Arranged, DistinctNames, Ascends, PrintMembers;
    ArrangedFacts(ms);
    forall i | 0 <= i < |ms| ensures EncodableMember(ms[i]) {
      assert ms[i] in table;
    }
    CanonicalObject(ms);
    ArrangedCanonical(ms);
    if table != [] {
      JoinedMembers(CanonicalMembers(table), |table|);
    }
  }

  // ==========================================================================
  // The commitment to a document: domain, salt, length and canonical body, framed and hashed.

  const DOMAIN: seq<int> :=
    [65, 103, 114, 111, 67, 104, 97, 105, 110, 47, 100, 111, 99, 117, 109, 101, 110, 116, 47, 118, 49, 0]

  predicate LowerHex(c: char) {
    IsDigit(c) || 'a' <= c <= 'f'
  }

  /** Pairs of hexadecimal digits as bytes. */
  function Bytes(hex: string): (b: seq<int>)
    requires |hex| % 2 == 0 && forall i :: 0 <= i < |hex| ==> LowerHex(hex[i])
    ensures |b| == |hex| / 2
  {
    if hex == "" then []
    else
      assert LowerHex(hex[0]) && LowerHex(hex[1]);
      [HexDigit(hex[0]).value * 16 + HexDigit(hex[1]).value] + Bytes(hex[2..])
  }

  /** The length as eight bytes, most significant first. */
  function Size(n: nat, width: nat): (b: seq<int>)
    ensures |b| == width
  {
    if width == 0 then [] else Size(n / 256, width - 1) + [n % 256]
  }

  function Codes(text: string): (b: seq<int>)
    ensures |b| == |text| && forall i :: 0 <= i < |b| ==> b[i] == text[i] as int
  {
    seq(|text|, i requires 0 <= i < |text| => text[i] as int)
  }

  lemma SaltDigits(salt: string)
    requires HexId(salt)
    ensures |salt| == 64 && forall i :: 0 <= i < |salt| ==> LowerHex(salt[i])
  {
  }

  /** The bytes that are hashed: domain, salt, length, canonical body. */
  function Framed(salt: string, body: string): seq<int>
    requires HexId(salt)
  {
    SaltDigits(salt);
    DOMAIN + Bytes(salt) + Size(|body|, 8) + Codes(body)
  }

  lemma {:induction false} BytesInjective(a: string, b: string)
    requires |a| == |b| && |a| % 2 == 0
    requires forall i :: 0 <= i < |a| ==> LowerHex(a[i])
    requires forall i :: 0 <= i < |b| ==> LowerHex(b[i])
    requires Bytes(a) == Bytes(b)
    ensures a == b
  {
    if a != "" {
      var x, y := Bytes(a), Bytes(b);
      assert x[0] == y[0];
      assert x[1..] == Bytes(a[2..]) && y[1..] == Bytes(b[2..]);
      BytesInjective(a[2..], b[2..]);
      SameByte(a[0], a[1], b[0], b[1]);
      assert a == [a[0], a[1]] + a[2..] && b == [b[0], b[1]] + b[2..];
    } else {
      assert b == "";
    }
  }

  lemma SameByte(a: char, b: char, c: char, d: char)
    requires LowerHex(a) && LowerHex(b) && LowerHex(c) && LowerHex(d)
    requires HexDigit(a).value * 16 + HexDigit(b).value == HexDigit(c).value * 16 + HexDigit(d).value
    ensures a == c && b == d
  {
    assert HexDigit(b).value < 16 && HexDigit(d).value < 16;
    assert HexDigit(a).value == HexDigit(c).value;
  }

  lemma CodesInjective(a: string, b: string)
    requires Codes(a) == Codes(b)
    ensures a == b
  {
    forall i | 0 <= i < |a| ensures a[i] == b[i] {
      assert Codes(a)[i] == Codes(b)[i];
    }
  }

  /** The framing leaves nothing ambiguous: equal frames have equal salt and equal text. */
  lemma FramedInjective(salt: string, body: string, salt2: string, body2: string)
    requires HexId(salt) && HexId(salt2) && Framed(salt, body) == Framed(salt2, body2)
    ensures salt == salt2 && body == body2
  {
    SaltDigits(salt);
    SaltDigits(salt2);
    var f, g := Framed(salt, body), Framed(salt2, body2);
    assert f[22..54] == Bytes(salt) && g[22..54] == Bytes(salt2);
    assert f[62..] == Codes(body) && g[62..] == Codes(body2);
    BytesInjective(salt, salt2);
    CodesInjective(body, body2);
  }

  /** The commitment to a body value: its canonical text, framed and hashed. */
  function Committed(hash: seq<int> -> string, v: Value, salt: string): string
    requires HexId(salt)
  {
    hash(Framed(salt, Print(Canonical(v))))
  }

  /**
   * With a hash that never collides, commitments are equal exactly for equal salts
   * and values equal up to member order.
   */
  lemma CommitmentBinds(hash: seq<int> -> string, v: Value, salt: string, w: Value, salt2: string)
    requires forall a, b :: hash(a) == hash(b) ==> a == b
    requires HexId(salt) && HexId(salt2) && Distinct(v) && Distinct(w)
    ensures Committed(hash, v, salt) == Committed(hash, w, salt2) <==> salt == salt2 && Alike(v, w)
  {
    hide Framed, Print, Distinct, Alike, Canonical;
    OneText(v, w);
    if Committed(hash, v, salt) == Committed(hash, w, salt2) {
      FramedInjective(salt, Print(Canonical(v)), salt2, Print(Canonical(w)));
    }
  }
}

/** Paged queries over the history, owner and state indexes. */
module Queries {
  import opened Types
  import opened Evidence
  import opened Engine
  import opened Ordering
  import opened Invariants
  import opened Runs
  import opened Guarantees
  import Json
  import opened Origins

  // ------------------------------------------------------------- zero padding

  /** The last `width` decimal digits, with leading zeros. */
  function Padded(n: nat, width: nat): (text: string)
    ensures |text| == width
  {
    if width == 0 then "" else Padded(n / 10, width - 1) + [Json.Digit(n % 10)]
  }

  function Power(width: nat): nat {
    if width == 0 then 1 else 10 * Power(width - 1)
  }

  lemma {:induction false} BeforeSnoc(s: string, t: string, c: char, d: char)
    requires |s| == |t|
    ensures Before(s + [c], t + [d]) <==> Before(s, t) || (s == t && c < d)
  {
    if s == "" {
      assert s + [c] == [c] && t + [d] == [d];
    } else {
      assert (s + [c])[1..] == s[1..] + [c] && (t + [d])[1..] == t[1..] + [d];
      assert s == [s[0]] + s[1..] && t == [t[0]] + t[1..];
      BeforeSnoc(s[1..], t[1..], c, d);
    }
  }

  /** Padded to one width, the byte order of the texts is the order of the numbers, and no two numbers share a text. */
  lemma {:induction false} PaddedOrder(a: nat, b: nat, width: nat)
    requires a < Power(width) && b < Power(width)
    ensures Before(Padded(a, width), Padded(b, width)) <==> a < b
    ensures Padded(a, width) == Padded(b, width) <==> a == b
  {
    if width > 0 {
      PaddedOrder(a / 10, b / 10, width - 1);
      var s, t := Padded(a / 10, width - 1), Padded(b / 10, width - 1);
      BeforeSnoc(s, t, Json.Digit(a % 10), Json.Digit(b % 10));
      if Padded(a, width) == Padded(b, width) {
        assert (s + [Json.Digit(a % 10)])[..width - 1] == s && (t + [Json.Digit(b % 10)])[..width - 1] == t;
        assert (s + [Json.Digit(a % 10)])[width - 1] == Json.Digit(a % 10)
               && (t + [Json.Digit(b % 10)])[width - 1] == Json.Digit(b % 10);
      }
    }
  }

  /** Ten digits hold every version, up to the largest. */
  lemma TenDigits()
    ensures MAX_VERSION < Power(10)
  {
    assert Power(5) == 100_000;
    assert Power(10) == 100_000 * Power(5);
  }

  // ------------------------------------------------------------------ indexes

  datatype Index = HistoryOf(batch: Id) | OwnedBy(owner: Msp) | InState(state: Lifecycle)

  /** A bookmark carries the query it belongs to; a text that does not decode to one is garbled. */
  datatype Token = Token(scope: Index, start: string) | Garbled

  datatype QueryName = GetBatchHistory | QueryBatchesByOwner | QueryBatchesByState

  datatype QueryError = InvalidPage | UnknownBatchId | UnknownOrganization | UnknownState | Dangling

  datatype Record = ReceiptRecord(receipt: Receipt) | BatchRecord(batch: Batch)

  datatype Answer<+T> = Answered(value: T) | Refused(error: QueryError)

  function MspNamed(name: string): Option<Msp> {
    match name
    case "ProducerMSP" => Some(Producer)
    case "LogisticsMSP" => Some(Logistics)
    case "RetailerMSP" => Some(Retailer)
    case "RegulatorMSP" => Some(Regulator)
    case _ => None
  }

  function StateNamed(name: string): Option<Lifecycle> {
    match name
    case "CREATED" => Some(Created)
    case "PICKUP_PENDING" => Some(PickupPending)
    case "IN_TRANSPORT" => Some(InTransport)
    case "DELIVERY_PENDING" => Some(DeliveryPending)
    case "RECEIVED" => Some(Received)
    case "RETAIL_REPORTED" => Some(RetailReported)
    case _ => None
  }

  /** How an organization is written on the channel; a foreign one under its own name. */
  function MspText(m: Msp): string {
    match m
    case Producer => "ProducerMSP"
    case Logistics => "LogisticsMSP"
    case Retailer => "RetailerMSP"
    case Regulator => "RegulatorMSP"
    case Foreign(name) => name
  }

  function StateText(l: Lifecycle): string {
    match l
    case Created => "CREATED"
    case PickupPending => "PICKUP_PENDING"
    case InTransport => "IN_TRANSPORT"
    case DeliveryPending => "DELIVERY_PENDING"
    case Received => "RECEIVED"
    case RetailReported => "RETAIL_REPORTED"
  }

  /** A filter is read as exactly the organization or state that is written so. */
  lemma FiltersNamed(name: string, m: Msp, l: Lifecycle)
    ensures MspNamed(name) == Some(m) <==> !m.Foreign? && name == MspText(m)
    ensures StateNamed(name) == Some(l) <==> name == StateText(l)
  {
    MspsDiffer();
    StatesDiffer();
  }

  lemma MspsDiffer()
    ensures MspText(Producer)[0] == 'P' && MspText(Logistics)[0] == 'L'
    ensures MspText(Retailer)[..3] == "Ret" && MspText(Regulator)[..3] == "Reg"
  {
  }

  lemma StatesDiffer()
    ensures StateText(Created)[0] == 'C' && StateText(PickupPending)[0] == 'P' && StateText(InTransport)[0] == 'I'
    ensures StateText(DeliveryPending)[0] == 'D' && StateText(Received)[..3] == "REC"
    ensures StateText(RetailReported)[..3] == "RET"
  {
  }

  /** The index that a query and its filter text name, or how the filter is refused. */
  function IndexNamed(fn: QueryName, filter: string): Answer<Index> {
    match fn
    case GetBatchHistory => if ValidId(Id(filter), "BAT") then Answered(HistoryOf(Id(filter)))
      else Refused(UnknownBatchId)
    case QueryBatchesByOwner =>
      if MspNamed(filter).Some? then Answered(OwnedBy(MspNamed(filter).value)) else Refused(UnknownOrganization)
    case QueryBatchesByState =>
      if StateNamed(filter).Some? then Answered(InState(StateNamed(filter).value)) else Refused(UnknownState)
  }

  datatype Listed = Listed(records: seq<Record>, next: Option<Token>)

  /** The attribute text of an index entry, which decides its place in the range. */
  function Attribute(k: Key): string {
    match k
    case HistoryKey(_, n) => if n >= 0 then Padded(n, 10) else ""
    case OwnerKey(_, id) => id.text
    case StateKey(_, id) => id.text
    case _ => ""
  }

  predicate Matches(index: Index, k: Key) {
    match index
    case HistoryOf(id) => k.HistoryKey? && k.batch == id
    case OwnedBy(m) => k.OwnerKey? && k.owner == m
    case InState(l) => k.StateKey? && k.state == l
  }

  /** Strictly ascending in byte order of the attribute. */
  predicate InOrder(entries: seq<Key>) {
    forall i, j :: 0 <= i < j < |entries| ==> Before(Attribute(entries[i]), Attribute(entries[j]))
  }

  /** The range of an index as the store iterates it: all its entries, in order. */
  ghost predicate Listing(s: State, index: Index, entries: seq<Key>) {
    && InOrder(entries)
    && forall k {:trigger k in entries} {:trigger k in s.pub} :: k in entries <==> k in s.pub && Matches(index, k)
  }

  /** The record of one entry: the receipt, or the batch the entry names; a dangling entry has none. */
  function RecordOf(s: State, k: Key): Option<Record> {
    if k !in s.pub then None
    else match s.pub[k]
      case ReceiptValue(r) => Some(ReceiptRecord(r))
      case IdValue(id) =>
        if ValidId(id, "BAT") && BatchKey(id) in s.pub && s.pub[BatchKey(id)].BatchValue? then
          Some(BatchRecord(s.pub[BatchKey(id)].batch)) else None
      case _ => None
  }

  // ------------------------------------------------------------------- ranges

  /** The position a bookmark stands for: the first entry not before it. */
  function From(entries: seq<Key>, start: Option<string>): (i: nat)
    ensures i <= |entries|
  {
    if start.None? || entries == [] || !Before(Attribute(entries[0]), start.value) then 0
      else 1 + From(entries[1..], start)
  }

  /** The bookmark made of an entry's attribute leads back to that entry. */
  lemma {:induction false} FromEntry(entries: seq<Key>, i: nat)
    requires InOrder(entries) && i < |entries|
    ensures From(entries, Some(Attribute(entries[i]))) == i
  {
    if i == 0 {
      BeforeIrreflexive(Attribute(entries[0]));
    } else {
      assert Before(Attribute(entries[0]), Attribute(entries[i]));
      FromEntry(entries[1..], i - 1);
    }
  }

  lemma FromNext(entries: seq<Key>, i: nat, start: Option<string>)
    requires i < |entries| && start.Some? && Before(Attribute(entries[i]), start.value)
    ensures From(entries[i..], start) == 1 + From(entries[i + 1..], start)
  {
    assert entries[i..][1..] == entries[i + 1..];
  }

  lemma FromHere(entries: seq<Key>, i: nat, start: Option<string>)
    requires i <= |entries| && !(start.Some? && i < |entries| && Before(Attribute(entries[i]), start.value))
    ensures From(entries[i..], start) == 0
  {
  }

  function PageEnd(entries: seq<Key>, size: nat, i: nat): nat
    requires i <= |entries|
  {
    if i + size <= |entries| then i + size else |entries|
  }

  /** One page of a range: at most `size` entries from the bookmark on, and the next entry as the new bookmark. */
  method Page(entries: seq<Key>, size: nat, start: Option<string>) returns (items: seq<Key>, next: Option<string>)
    ensures var i := From(entries, start);
            var j := PageEnd(entries, size, i);
            items == entries[i..j] && next == (if j < |entries| then Some(Attribute(entries[j])) else None)
  {
    hide Attribute, Before;
    var i := 0;
    while start.Some? && i < |entries| && Before(Attribute(entries[i]), start.value)
      invariant 0 <= i <= |entries|
      invariant From(entries, start) == i + From(entries[i..], start)
    {
      FromNext(entries, i, start);
      i := i + 1;
    }
    FromHere(entries, i, start);
    hide From;
    items, next := [], None;
    var first := i;
    while i < |entries| && |items| < size
      invariant first <= i <= |entries| && |items| == i - first <= size && items == entries[first..i]
    {
      items := items + [entries[i]];
      i := i + 1;
    }
    if i < |entries| {
      next := Some(Attribute(entries[i]));
    }
  }

  // ------------------------------------------------------------------ queries

  /** The token is one of this index. */
  predicate InScope(token: Option<Token>, index: Index) {
    token.Some? ==> token.value.Token? && token.value.scope == index
  }

  function StartOf(token: Option<Token>): Option<string> {
    if token.Some? && token.value.Token? then Some(token.value.start) else None
  }

  /** What one page of a range is to its index: the entries from the bookmark on, each with its record. */
  ghost predicate PageOf(s: State, index: Index, entries: seq<Key>, size: nat, start: Option<string>,
                         r: Answer<Listed>) {
    var i := From(entries, start);
    var j := PageEnd(entries, size, i);
    if exists n :: i <= n < j && RecordOf(s, entries[n]).None? then r == Refused(Dangling)
    else
      && r.Answered? && |r.value.records| == j - i
      && (forall n :: 0 <= n < j - i ==> RecordOf(s, entries[i + n]) == Some(r.value.records[n]))
      && r.value.next == if j < |entries| then Some(Token(index, Attribute(entries[j]))) else None
  }

  /** The page of an index, its entries looked up one after the other. */
  method PageRecords(s: State, index: Index, entries: seq<Key>, size: nat, start: Option<string>)
    returns (r: Answer<Listed>)
    ensures PageOf(s, index, entries, size, start, r)
  {
    hide RecordOf, Attribute, From;
    var items, next := Page(entries, size, start);
    ghost var i := From(entries, start);
    var records: seq<Record> := [];
    var n := 0;
    while n < |items|
      invariant 0 <= n <= |items| && |records| == n
      invariant forall m :: 0 <= m < n ==> RecordOf(s, items[m]) == Some(records[m])
    {
      assert items[n] == entries[i + n];
      var found := RecordOf(s, items[n]);
      if found.None? {
        return Refused(Dangling);
      }
      records := records + [found.value];
      n := n + 1;
    }
    forall m | 0 <= m < |items| ensures RecordOf(s, entries[i + m]) == Some(records[m]) {
      assert items[m] == entries[i + m];
    }
    forall m | i <= m < i + |items| ensures RecordOf(s, entries[m]).Some? {
      assert items[m - i] == entries[m];
    }
    r := Answered(Listed(records, if next.Some? then Some(Token(index, next.value)) else None));
  }

  /** How a query is refused before its range is read: by its size, its filter, then its bookmark. */
  function Refusal(fn: QueryName, filter: string, size: int, token: Option<Token>): Option<QueryError> {
    if !(1 <= size <= 100) then Some(InvalidPage)
    else match IndexNamed(fn, filter)
      case Refused(error) => Some(error)
      case Answered(index) => if InScope(token, index) then None else Some(InvalidPage)
  }

  /** A query is refused as `Refusal` says; otherwise it gives a page of the index, and never an internal error. */
  ghost predicate Replies(s: State, fn: QueryName, filter: string, size: int, token: Option<Token>,
                          r: Answer<Listed>) {
    match (Refusal(fn, filter, size, token), IndexNamed(fn, filter))
    case (Some(error), _) => r == Refused(error)
    case (None, Answered(index)) =>
      && r.Answered? && size >= 0
      && exists entries :: Listing(s, index, entries) && PageOf(s, index, entries, size, StartOf(token), r)
    case (None, Refused(_)) => false
  }

  /**
   * One page of a query on a reachable ledger: refused for its size, its filter or
   * its bookmark, in this order; otherwise a page of the index, and never an error.
   */
  method Query(ghost env: Env, ghost rs: seq<Request>, s: State, fn: QueryName, filter: string, size: int,
               token: Option<Token>)
    returns (r: Answer<Listed>)
    requires s == Run(env, rs)
    ensures Replies(s, fn, filter, size, token, r)
  {
    hide Run, MspNamed, StateNamed, ValidId, RecordOf, Attribute, From, Inv, KeysNamed, Whole;
    if !(1 <= size <= 100) {
      return Refused(InvalidPage);
    }
    var index := IndexNamed(fn, filter);
    if index.Refused? {
      return Refused(index.error);
    }
    if !InScope(token, index.value) {
      return Refused(InvalidPage);
    }
    RunSane(env, rs);
    StateApart(s, index.value);
    var entries := List(s, index.value);
    AllRecorded(s, index.value, entries);
    r := PageRecords(s, index.value, entries, size, StartOf(token));
    assert forall n :: 0 <= n < |entries| ==> entries[n] in entries;
  }

  // ------------------------------------------------------------- the iteration

  /** No two entries of the index share an attribute. */
  ghost predicate Apart(s: State, index: Index) {
    forall j, k {:trigger Matches(index, j), Matches(index, k)} ::
      j in s.pub && k in s.pub && Matches(index, j) && Matches(index, k) && Attribute(j) == Attribute(k) ==> j == k
  }

  function InsertKey(entries: seq<Key>, k: Key): seq<Key> {
    if entries == [] || Before(Attribute(k), Attribute(entries[0])) then [k] + entries
    else [entries[0]] + InsertKey(entries[1..], k)
  }

  lemma {:induction false} InsertKeyFacts(entries: seq<Key>, k: Key)
    requires InOrder(entries) && forall e :: e in entries ==> Attribute(e) != Attribute(k)
    ensures InOrder(InsertKey(entries, k)) && forall e :: e in InsertKey(entries, k) <==> e == k || e in entries
  {
    hide Attribute;
    if entries == [] {
    } else if Before(Attribute(k), Attribute(entries[0])) {
      forall j | 1 <= j < |entries| ensures Before(Attribute(k), Attribute(entries[j])) {
        BeforeTransitive(Attribute(k), Attribute(entries[0]), Attribute(entries[j]));
      }
    } else {
      assert entries[0] in entries;
      BeforeTotal(Attribute(k), Attribute(entries[0]));
      InsertKeyFacts(entries[1..], k);
      var rest := InsertKey(entries[1..], k);
      forall j | 0 <= j < |rest| ensures Before(Attribute(entries[0]), Attribute(rest[j])) {
        assert rest[j] in rest;
        if rest[j] != k {
          var i :| 0 <= i < |entries[1..]| && entries[1..][i] == rest[j];
          assert entries[i + 1] == rest[j];
        }
      }
      assert entries == [entries[0]] + entries[1..];
    }
  }

  /** The range of an index, put in order. */
  method List(s: State, index: Index) returns (entries: seq<Key>)
    requires Apart(s, index)
    ensures Listing(s, index, entries)
  {
    hide Attribute, Before;
    entries := [];
    var left := set k | k in s.pub && Matches(index, k);
    while left != {}
      invariant forall k {:trigger k in left} :: k in left ==> k in s.pub && Matches(index, k)
      invariant InOrder(entries)
      invariant forall k {:trigger k in entries} {:trigger k in s.pub} ::
                  k in entries <==> k in s.pub && Matches(index, k) && k !in left
      decreases |left|
    {
      var k :| k in left;
      left := left - {k};
      InsertKeyFacts(entries, k);
      entries := InsertKey(entries, k);
    }
  }

  /** The history of every batch is its versions 1 to v, v at most ten, each with a receipt. */
  ghost predicate Whole(s: State) {
    && (forall id {:trigger VersionAt(s, id)} :: 0 <= VersionAt(s, id) <= 10)
    && (forall id, n {:trigger HistoryKey(id, n) in s.pub} ::
          && (HistoryKey(id, n) in s.pub <==> 1 <= n <= VersionAt(s, id))
          && (HistoryKey(id, n) in s.pub ==> s.pub[HistoryKey(id, n)].ReceiptValue?))
  }

  /** What the queries rely on; it holds of every reachable ledger. */
  ghost predicate Sane(s: State) {
    Inv(s) && KeysNamed(s) && Whole(s)
  }

  lemma InvWhole(s: State)
    requires Inv(s)
    ensures Whole(s)
  {
    hide BatchAt, Configured, Records, Transfers, Indexed, References, Evaluations, Consumed, Slots, Analysed, Privates,
         Versioned, History;
    forall id ensures 0 <= VersionAt(s, id) <= 10 {
      VersionBounds(s, id);
    }
    forall id, n
      ensures HistoryKey(id, n) in s.pub <==> 1 <= n <= VersionAt(s, id)
      ensures HistoryKey(id, n) in s.pub ==> s.pub[HistoryKey(id, n)].ReceiptValue?
    {
      HistoryIs(s, id, n);
    }
  }

  lemma HistoryIs(s: State, id: Id, n: int)
    requires History(s)
    ensures HistoryAt(s, id, n)
  {
    hide BatchAt;
  }

  lemma RunSane(env: Env, rs: seq<Request>)
    ensures Sane(Run(env, rs))
  {
    hide Run, Inv, KeysNamed, Whole, SourcesStored;
    RunInv(env, rs);
    RunNamed(env, rs);
    InvWhole(Run(env, rs));
  }

  /** The entries of every index have attributes of their own. */
  lemma StateApart(s: State, index: Index)
    requires Whole(s)
    ensures Apart(s, index)
  {
    forall j, k | j in s.pub && k in s.pub && Matches(index, j) && Matches(index, k) && Attribute(j) == Attribute(k)
      ensures j == k
    {
      if index.HistoryOf? {
        assert HistoryKey(index.batch, j.version) in s.pub && HistoryKey(index.batch, k.version) in s.pub;
        TenDigits();
        hide Power, Padded, VersionAt;
        PaddedOrder(j.version, k.version, 10);
      }
    }
  }

  // ------------------------------------------------------- a client that pages

  ghost predicate NotBefore(k: Key, start: Option<string>) {
    start.None? || !Before(Attribute(k), start.value)
  }

  /** A bookmark splits a range: what comes before it, and what does not. */
  lemma {:induction false} FromSplits(entries: seq<Key>, start: Option<string>)
    requires InOrder(entries)
    ensures forall i :: 0 <= i < From(entries, start) ==> !NotBefore(entries[i], start)
    ensures forall i :: From(entries, start) <= i < |entries| ==> NotBefore(entries[i], start)
  {
    hide Attribute;
    if start.Some? && entries != [] {
      if Before(Attribute(entries[0]), start.value) {
        FromSplits(entries[1..], start);
        assert forall i :: 1 <= i < |entries| ==> entries[i] == entries[1..][i - 1];
      } else {
        forall i | 1 <= i < |entries| ensures !Before(Attribute(entries[i]), start.value) {
          if Before(Attribute(entries[i]), start.value) {
            BeforeTransitive(Attribute(entries[0]), Attribute(entries[i]), start.value);
          }
        }
      }
    }
  }

  /** One page read: the requests served by then, the ledger, and the bookmark it was read from. */
  datatype Visit = Visit(served: seq<Request>, s: State, start: Option<string>)

  /** The visit was to the ledger that these requests lead to, and more may have been served since. */
  ghost predicate Real(env: Env, served: seq<Request>, v: Visit) {
    v.served <= served && v.s == Run(env, v.served)
  }

  ghost predicate There(v: Visit, index: Index, k: Key) {
    Matches(index, k) && k in v.s.pub
  }

  /** The visits are of one growing ledger, and each bookmark is the attribute of an entry of the page before. */
  ghost predicate Chained(index: Index, now: State, vs: seq<Visit>) {
    && (forall i {:trigger vs[i]} :: 0 <= i < |vs| ==> Whole(vs[i].s) && KeysLast(vs[i].s, now))
    && (forall i, j {:trigger vs[i], vs[j]} :: 0 <= i < j < |vs| ==> KeysLast(vs[i].s, vs[j].s))
    && (|vs| > 0 ==> vs[0].start.None?)
    && (forall i {:trigger vs[i]} :: 1 <= i < |vs| ==> BookmarkOf(vs[i - 1], index, vs[i].start))
  }

  /** The bookmark is the attribute of an entry that was there. */
  ghost predicate BookmarkOf(v: Visit, index: Index, start: Option<string>) {
    start.Some? && exists k {:trigger There(v, index, k)} :: There(v, index, k) && Attribute(k) == start.value
  }

  /** Each record was that of its entry at one of the visits. */
  ghost predicate Seen(index: Index, vs: seq<Visit>, k: Key, r: Record) {
    exists i :: 0 <= i < |vs| && There(vs[i], index, k) && RecordOf(vs[i].s, k) == Some(r)
  }

  /** The entry was there from the i-th visit on, and not before its bookmark. */
  ghost predicate Lasts(index: Index, vs: seq<Visit>, i: nat, k: Key) {
    && i < |vs| && NotBefore(k, vs[i].start)
    && forall j :: i <= j < |vs| ==> There(vs[j], index, k)
  }

  /** What a client has after some pages: entries in order, each seen, none missed that was there all the time. */
  ghost predicate Paged(index: Index, vs: seq<Visit>, keys: seq<Key>, all: seq<Record>, next: Option<string>) {
    && |all| == |keys| && InOrder(keys)
    && (forall n {:trigger keys[n]} :: 0 <= n < |keys| ==> Seen(index, vs, keys[n], all[n]))
    && (next.Some? ==> forall n {:trigger keys[n]} :: 0 <= n < |keys| ==> !NotBefore(keys[n], next))
    && (forall i: nat, k {:trigger Lasts(index, vs, i, k)} ::
          Lasts(index, vs, i, k) ==> k in keys || (next.Some? && NotBefore(k, next)))
  }

  lemma SeenLater(index: Index, vs: seq<Visit>, v: Visit, k: Key, r: Record)
    requires Seen(index, vs, k, r)
    ensures Seen(index, vs + [v], k, r)
  {
    hide There, RecordOf;
    var i :| 0 <= i < |vs| && There(vs[i], index, k) && RecordOf(vs[i].s, k) == Some(r);
    assert (vs + [v])[i] == vs[i];
  }

  /** One more page. */
  lemma PagedOn(index: Index, vs: seq<Visit>, keys: seq<Key>, all: seq<Record>, v: Visit, entries: seq<Key>,
                page: seq<Record>, j: nat)
    requires |vs| > 0 ==> v.start.Some?
    requires Paged(index, vs, keys, all, if |vs| == 0 then None else v.start)
             && (|vs| == 0 ==> keys == [] && v.start.None?)
    requires Listing(v.s, index, entries)
    requires var i := From(entries, v.start);
             && i <= j <= |entries| && |page| == j - i
             && forall n :: 0 <= n < j - i ==> RecordOf(v.s, entries[i + n]) == Some(page[n])
    ensures var i := From(entries, v.start);
            Paged(index, vs + [v], keys + entries[i..j], all + page,
                  if j < |entries| then Some(Attribute(entries[j])) else None)
  {
    hide Attribute, RecordOf, From, Before, There, Seen, Lasts, InOrder, NotBefore, Listing;
    var i := From(entries, v.start);
    var now, got, more := vs + [v], keys + entries[i..j], all + page;
    var next := if j < |entries| then Some(Attribute(entries[j])) else None;
    assert InOrder(entries) by {
      ListingOrder(v.s, index, entries);
    }
    FromSplits(entries, v.start);
    PagedOrder(keys, entries, v.start, j);
    SeenPaged(index, vs, keys, all, v, entries, page, i, j);
    forall l: nat, k | Lasts(index, now, l, k) ensures k in got || (next.Some? && NotBefore(k, next)) {
      LastsPaged(index, vs, keys, all, v, entries, j, l, k);
    }
  }

  lemma SeenPaged(index: Index, vs: seq<Visit>, keys: seq<Key>, all: seq<Record>, v: Visit, entries: seq<Key>,
                  page: seq<Record>, i: nat, j: nat)
    requires |all| == |keys| && forall n {:trigger keys[n]} :: 0 <= n < |keys| ==> Seen(index, vs, keys[n], all[n])
    requires Listing(v.s, index, entries) && i <= j <= |entries| && |page| == j - i
    requires forall n :: 0 <= n < j - i ==> RecordOf(v.s, entries[i + n]) == Some(page[n])
    ensures var got, more := keys + entries[i..j], all + page;
            |more| == |got|
            && forall n {:trigger got[n]} :: 0 <= n < |got| ==> Seen(index, vs + [v], got[n], more[n])
  {
    hide Seen, RecordOf, Listing;
    var got, more := keys + entries[i..j], all + page;
    forall n | 0 <= n < |got| ensures Seen(index, vs + [v], got[n], more[n]) {
      if n < |keys| {
        SeenLater(index, vs, v, keys[n], all[n]);
      } else {
        var x := n - |keys|;
        assert RecordOf(v.s, entries[i + x]) == Some(page[x]);
        SeenNow(index, vs, v, entries, i + x, page[x]);
      }
    }
  }

  lemma ListingOrder(s: State, index: Index, entries: seq<Key>)
    requires Listing(s, index, entries)
    ensures InOrder(entries)
  {
    hide InOrder;
  }

  lemma SeenNow(index: Index, vs: seq<Visit>, v: Visit, entries: seq<Key>, x: nat, r: Record)
    requires Listing(v.s, index, entries) && x < |entries| && RecordOf(v.s, entries[x]) == Some(r)
    ensures Seen(index, vs + [v], entries[x], r)
  {
    hide RecordOf, InOrder;
    assert entries[x] in entries;
    assert (vs + [v])[|vs|] == v;
  }

  lemma LastsPaged(index: Index, vs: seq<Visit>, keys: seq<Key>, all: seq<Record>, v: Visit, entries: seq<Key>, j: nat,
                   l: nat, k: Key)
    requires Paged(index, vs, keys, all, if |vs| == 0 then None else v.start) && (|vs| == 0 ==> v.start.None?)
    requires Listing(v.s, index, entries) && From(entries, v.start) <= j <= |entries|
    requires Lasts(index, vs + [v], l, k)
    ensures k in keys + entries[From(entries, v.start)..j]
            || (j < |entries| && NotBefore(k, Some(Attribute(entries[j]))))
  {
    hide Attribute, From, Paged, InOrder, NotBefore, There, Listing, Lasts;
    ListingOrder(v.s, index, entries);
    FromSplits(entries, v.start);
    LastsNow(index, vs, v, l, k);
    NotMissed(index, vs, keys, all, v, l, k);
    if k !in keys {
      ThereListed(v, index, entries, k);
      var x :| 0 <= x < |entries| && entries[x] == k;
      if x < j {
        InSlice(entries, From(entries, v.start), j, x);
      } else {
        NextBefore(entries, j, x);
      }
    }
  }

  lemma InSlice(entries: seq<Key>, i: nat, j: nat, x: nat)
    requires i <= x < j <= |entries|
    ensures entries[x] in entries[i..j]
  {
    assert entries[i..j][x - i] == entries[x];
  }

  lemma LastsNow(index: Index, vs: seq<Visit>, v: Visit, l: nat, k: Key)
    requires Lasts(index, vs + [v], l, k)
    ensures There(v, index, k)
  {
    hide There, NotBefore;
    assert (vs + [v])[|vs|] == v;
  }

  lemma ThereListed(v: Visit, index: Index, entries: seq<Key>, k: Key)
    requires Listing(v.s, index, entries) && There(v, index, k)
    ensures k in entries
  {
    hide InOrder;
  }

  lemma NextBefore(entries: seq<Key>, j: nat, x: nat)
    requires InOrder(entries) && j <= x < |entries|
    ensures NotBefore(entries[x], Some(Attribute(entries[j])))
  {
    hide Attribute;
    BeforeIrreflexive(Attribute(entries[j]));
    if j < x && Before(Attribute(entries[x]), Attribute(entries[j])) {
      BeforeTransitive(Attribute(entries[j]), Attribute(entries[x]), Attribute(entries[j]));
    }
  }

  /** An entry that lasts is collected already, or still to come. */
  lemma NotMissed(index: Index, vs: seq<Visit>, keys: seq<Key>, all: seq<Record>, v: Visit, l: nat, k: Key)
    requires Paged(index, vs, keys, all, if |vs| == 0 then None else v.start) && (|vs| == 0 ==> v.start.None?)
    requires Lasts(index, vs + [v], l, k)
    ensures k in keys || NotBefore(k, v.start)
  {
    hide There, InOrder, Seen;
    if l < |vs| {
      forall j | l <= j < |vs| ensures There(vs[j], index, k) {
        assert (vs + [v])[j] == vs[j];
      }
      assert (vs + [v])[l] == vs[l];
      assert Lasts(index, vs, l, k);
    } else {
      assert (vs + [v])[l] == v;
    }
  }

  /** Pages follow one another in order. */
  lemma PagedOrder(keys: seq<Key>, entries: seq<Key>, start: Option<string>, j: nat)
    requires InOrder(keys) && InOrder(entries) && From(entries, start) <= j <= |entries|
    requires keys == [] || (start.Some? && forall n :: 0 <= n < |keys| ==> !NotBefore(keys[n], start))
    requires forall i :: From(entries, start) <= i < |entries| ==> NotBefore(entries[i], start)
    ensures var got := keys + entries[From(entries, start)..j];
            && InOrder(got)
            && (j < |entries| ==> forall n :: 0 <= n < |got| ==> !NotBefore(got[n], Some(Attribute(entries[j]))))
  {
    hide Attribute, From;
    var i := From(entries, start);
    var got := keys + entries[i..j];
    forall a, x | 0 <= a < |keys| && i <= x < |entries| ensures Before(Attribute(keys[a]), Attribute(entries[x])) {
      Crossing(Attribute(keys[a]), start.value, Attribute(entries[x]));
    }
    forall a, b | 0 <= a < b < |got| ensures Before(Attribute(got[a]), Attribute(got[b])) {
      if a >= |keys| {
        assert got[a] == entries[i + (a - |keys|)] && got[b] == entries[i + (b - |keys|)];
      } else if b >= |keys| {
        assert got[b] == entries[i + (b - |keys|)];
      }
    }
    if j < |entries| {
      forall n | 0 <= n < |got| ensures Before(Attribute(got[n]), Attribute(entries[j])) {
        if n >= |keys| {
          assert got[n] == entries[i + (n - |keys|)];
        }
      }
    }
  }

  lemma Crossing(a: string, m: string, b: string)
    requires Before(a, m) && !Before(b, m)
    ensures Before(a, b)
  {
    BeforeTotal(b, m);
    if b != m {
      BeforeTransitive(a, m, b);
    }
  }

  /** No entry dangles. */
  lemma AllRecorded(s: State, index: Index, entries: seq<Key>)
    requires Inv(s) && KeysNamed(s) && Listing(s, index, entries)
    ensures forall k :: k in entries ==> RecordOf(s, k).Some?
  {
    hide Inv, KeysNamed, RecordOf, InOrder, Matches;
    forall k | k in entries ensures RecordOf(s, k).Some? {
      EntryLeads(s, index, k);
    }
  }

  /** The entry leads to the record that its index promises. */
  ghost predicate Leads(s: State, index: Index, k: Key) {
    match (index, RecordOf(s, k))
    case (_, None) => false
    case (HistoryOf(id), Some(r)) =>
      k.HistoryKey? && r.ReceiptRecord? && r.receipt.batch == id && r.receipt.version == k.version
    case (OwnedBy(m), Some(r)) =>
      k.OwnerKey? && r == BatchRecord(BatchAt(s, k.batch)) && BatchAt(s, k.batch).owner == m
    case (InState(l), Some(r)) =>
      k.StateKey? && r == BatchRecord(BatchAt(s, k.batch)) && BatchAt(s, k.batch).state == l
  }

  lemma EntryLeads(s: State, index: Index, k: Key)
    requires Inv(s) && KeysNamed(s) && k in s.pub && Matches(index, k)
    ensures Leads(s, index, k) && RecordOf(s, k).Some?
  {
    hide ValidId, Configured, Transfers, References, Evaluations, Consumed, Slots, Privates, Analysed, Versioned,
         LifecycleOk, BatchAt, RecordOf, Indexed, Records;
    match k
    case HistoryKey(id, n) => ReceiptLeads(s, k);
    case OwnerKey(m, id) => BatchLeads(s, k, id);
    case StateKey(l, id) => BatchLeads(s, k, id);
    case _ =>
  }

  lemma ReceiptLeads(s: State, k: Key)
    requires History(s) && k in s.pub && k.HistoryKey?
    ensures match RecordOf(s, k)
            case Some(r) => r.ReceiptRecord? && r.receipt.batch == k.batch && r.receipt.version == k.version
            case None => false
  {
    hide ValidId, BatchAt;
    assert HistoryKey(k.batch, k.version) in s.pub;
  }

  /** An owner or state entry leads to its batch, and tells its owner or state. */
  lemma BatchLeads(s: State, k: Key, id: Id)
    requires Records(s) && Indexed(s) && KeysNamed(s) && k in s.pub
    requires (k.OwnerKey? && k.batch == id) || (k.StateKey? && k.batch == id)
    ensures RecordOf(s, k) == Some(BatchRecord(BatchAt(s, id)))
    ensures k.OwnerKey? ==> BatchAt(s, id).owner == k.owner
    ensures k.StateKey? ==> BatchAt(s, id).state == k.state
  {
    hide ValidId, LifecycleOk;
    if k.OwnerKey? {
      assert OwnerKey(k.owner, id) in s.pub;
    } else {
      assert StateKey(k.state, id) in s.pub;
    }
    assert RecordOk(s, id) && KeyNamed(BatchKey(id));
  }

  /** On a reachable ledger no entry dangles, and it leads to the record its index promises. */
  lemma EntryRecord(env: Env, rs: seq<Request>, index: Index, k: Key)
    requires Matches(index, k)
    ensures k in Run(env, rs).pub ==> Leads(Run(env, rs), index, k)
  {
    hide Run, Inv, KeysNamed, Whole, Leads, RecordOf;
    RunSane(env, rs);
    if k in Run(env, rs).pub {
      EntryLeads(Run(env, rs), index, k);
    }
  }

  lemma ServedGrows(env: Env, served: seq<Request>, more: seq<Request>)
    requires served <= more
    ensures KeysLast(Run(env, served), Run(env, more))
  {
    hide Run, KeysLast, BatchesLast, RecordsLast;
    assert served + more[|served|..] == more;
    RunExtends(env, served, more[|served|..]);
  }

  /** What a client may rely on after some pages. */
  ghost predicate Collected(index: Index, now: State, visits: seq<Visit>, keys: seq<Key>, all: seq<Record>,
                            complete: bool, patience: nat) {
    && Chained(index, now, visits)
    && (complete ==>
          |visits| > 0 && visits[|visits| - 1].s == now && Paged(index, visits, keys, all, None))
    && |all| == |keys| && InOrder(keys)
    && (forall n {:trigger keys[n]} :: 0 <= n < |keys| ==> Seen(index, visits, keys[n], all[n]))
    && (!complete ==> |visits| == patience && |keys| >= patience)
  }

  /**
   * A client reads page after page, of any admitted size, while the ledger moves
   * on between them, until a page is the last one or its patience is at an end.
   * It gets its entries in order and each once, and, when it comes to the end, every
   * entry that was there from some page on and not before that page's bookmark.
   */
  method Collect(peer: Peer, index: Index, size: nat, patience: nat)
    returns (all: seq<Record>, complete: bool, ghost keys: seq<Key>, ghost visits: seq<Visit>)
    requires peer.Valid() && 1 <= size <= 100
    modifies peer
    ensures peer.Valid() && old(peer.served) <= peer.served
    ensures forall v :: v in visits ==> Real(peer.env, peer.served, v) && old(peer.served) <= v.served
    ensures Collected(index, peer.now, visits, keys, all, complete, patience)
  {
    hide Run, Attribute, From, InOrder, Apart, RecordOf, BookmarkOf, There, Seen, Chained, Paged, Listing, PageOf, Inv,
         KeysNamed, Whole, KeysLast;
    all, complete, keys, visits := [], false, [], [];
    var token: Option<Token>, left := None, patience;
    NothingPaged(index, peer.now);
    while left > 0 && !complete
      invariant peer.Valid() && old(peer.served) <= peer.served && Chained(index, peer.now, visits)
      invariant forall v :: v in visits ==> Real(peer.env, peer.served, v) && old(peer.served) <= v.served
      invariant |visits| == patience - left
      invariant token.Some? <==> |visits| > 0 && !complete
      invariant InScope(token, index)
      invariant complete ==> |visits| > 0 && visits[|visits| - 1].s == peer.now
      invariant |visits| > 0 && !complete ==> BookmarkOf(visits[|visits| - 1], index, StartOf(token))
      invariant Paged(index, visits, keys, all, if complete then None else StartOf(token))
      invariant |visits| == 0 ==> keys == []
      invariant !complete ==> |keys| >= |visits|
      decreases left
    {
      left := left - 1;
      ghost var before, was := peer.served, peer.now;
      peer.Elapse();
      ServedGrows(peer.env, before, peer.served);
      RunSane(peer.env, peer.served);
      StateApart(peer.now, index);
      var entries := List(peer.now, index);
      var start := StartOf(token);
      var page := PageRecords(peer.now, index, entries, size, start);
      ghost var v := Visit(peer.served, peer.now, start);
      ghost var i, j := From(entries, start), PageEnd(entries, size, From(entries, start));
      AllRecorded(peer.now, index, entries);
      PageTurned(index, visits, keys, all, was, v, entries, size, page);
      visits, keys := visits + [v], keys + entries[i..j];
      all := all + page.value.records;
      token := page.value.next;
      complete := token.None?;
    }
    PagedParts(index, visits, keys, all, if complete then None else StartOf(token));
  }

  lemma PagedParts(index: Index, vs: seq<Visit>, keys: seq<Key>, all: seq<Record>, next: Option<string>)
    requires Paged(index, vs, keys, all, next)
    ensures |all| == |keys| && InOrder(keys) && forall n :: 0 <= n < |keys| ==> Seen(index, vs, keys[n], all[n])
  {
    hide InOrder, Seen, Lasts, NotBefore;
  }

  /** Reading one more page: it never dangles, is not empty unless it is the last, and all promises go on. */
  lemma PageTurned(index: Index, vs: seq<Visit>, keys: seq<Key>, all: seq<Record>, was: State, v: Visit,
                   entries: seq<Key>, size: nat, page: Answer<Listed>)
    requires Chained(index, was, vs) && KeysLast(was, v.s) && Whole(v.s) && 1 <= size
    requires Paged(index, vs, keys, all, if |vs| == 0 then None else v.start)
    requires if |vs| == 0 then keys == [] && v.start.None? else BookmarkOf(vs[|vs| - 1], index, v.start)
    requires Listing(v.s, index, entries) && PageOf(v.s, index, entries, size, v.start, page)
    requires forall k :: k in entries ==> RecordOf(v.s, k).Some?
    ensures var i, j := From(entries, v.start), PageEnd(entries, size, From(entries, v.start));
            && page.Answered?
            && Chained(index, v.s, vs + [v])
            && Paged(index, vs + [v], keys + entries[i..j], all + page.value.records, StartOf(page.value.next))
            && InScope(page.value.next, index) && (page.value.next.Some? <==> StartOf(page.value.next).Some?)
            && (page.value.next.Some? ==> BookmarkOf(v, index, StartOf(page.value.next)) && j - i >= 1)
  {
    hide Attribute, From, InOrder, RecordOf, There, Seen, Chained, Paged, Listing, Whole, KeysLast;
    var i, j := From(entries, v.start), PageEnd(entries, size, From(entries, v.start));
    assert forall n :: i <= n < j ==> entries[n] in entries;
    PagedOn(index, vs, keys, all, v, entries, page.value.records, j);
    NextBookmark(v, index, entries, j);
    hide BookmarkOf;
    ChainedOn(index, vs, was, v);
  }

  lemma ChainedOn(index: Index, vs: seq<Visit>, was: State, v: Visit)
    requires Chained(index, was, vs) && KeysLast(was, v.s) && Whole(v.s)
    requires if |vs| == 0 then v.start.None? else BookmarkOf(vs[|vs| - 1], index, v.start)
    ensures Chained(index, v.s, vs + [v])
  {
    hide BookmarkOf, KeysLast, Whole;
    var now := vs + [v];
    KeysLastItself(v.s);
    forall i | 0 <= i < |vs| ensures KeysLast(vs[i].s, v.s) {
      KeysOn(vs[i].s, was, v.s);
    }
    forall i, j | 0 <= i < j < |now| ensures KeysLast(now[i].s, now[j].s) {
      if j < |vs| {
        assert KeysLast(vs[i].s, vs[j].s);
      }
    }
    forall i | 1 <= i < |now| ensures BookmarkOf(now[i - 1], index, now[i].start) {
      if i < |vs| {
        assert now[i] == vs[i] && now[i - 1] == vs[i - 1];
      }
    }
  }

  lemma KeysLastItself(s: State)
    ensures KeysLast(s, s)
  {
    hide Lasting;
  }

  lemma NothingPaged(index: Index, now: State)
    ensures Paged(index, [], [], [], None) && Chained(index, now, [])
  {
    hide KeysLast, Whole;
  }

  lemma NextBookmark(v: Visit, index: Index, entries: seq<Key>, j: nat)
    requires Listing(v.s, index, entries) && j <= |entries|
    ensures j < |entries| ==> BookmarkOf(v, index, Some(Attribute(entries[j])))
  {
    hide Attribute, InOrder;
    if j < |entries| {
      assert entries[j] in entries;
      assert There(v, index, entries[j]);
    }
  }

  // ----------------------------------------------------------------- theorems

  lemma FirstIn(ns: seq<int>) returns (n: int)
    requires ns != []
    ensures n in ns
  {
    n := ns[0];
  }

  /** A strictly ascending sequence of exactly the numbers 1 to v is 1, 2, ..., v. */
  lemma {:induction false} Counting(ns: seq<int>, v: nat)
    requires forall i, j :: 0 <= i < j < |ns| ==> ns[i] < ns[j]
    requires forall n :: n in ns <==> 1 <= n <= v
    ensures |ns| == v && forall i :: 0 <= i < v ==> ns[i] == i + 1
  {
    if v == 0 {
      if ns != [] {
        var _ := FirstIn(ns);
      }
    } else {
      assert v in ns;
      var last := |ns| - 1;
      assert ns[last] in ns;
      var k :| 0 <= k < |ns| && ns[k] == v;
      var rest := ns[..last];
      assert ns == rest + [ns[last]];
      forall n ensures n in rest <==> 1 <= n <= v - 1 {
        assert n in ns <==> n in rest || n == v;
      }
      Counting(rest, v - 1);
    }
  }

  function Version(k: Key): int {
    if k.HistoryKey? then k.version else 0
  }

  /** Ten-digit texts in byte order are versions in numeric order. */
  lemma VersionsAscend(entries: seq<Key>, id: Id)
    requires InOrder(entries) && forall k :: k in entries ==>
               k.HistoryKey? && k.batch == id && 1 <= k.version <= MAX_VERSION
    ensures forall i, j :: 0 <= i < j < |entries| ==> Version(entries[i]) < Version(entries[j])
  {
    TenDigits();
    hide Power, Padded, Before;
    forall i, j | 0 <= i < j < |entries| ensures Version(entries[i]) < Version(entries[j]) {
      assert entries[i] in entries && entries[j] in entries;
      PaddedOrder(entries[i].version, entries[j].version, 10);
    }
  }

  lemma ListedVersions(s: State, id: Id, entries: seq<Key>, v: nat)
    requires Listing(s, HistoryOf(id), entries) && v <= MAX_VERSION
    requires forall n :: HistoryKey(id, n) in s.pub <==> 1 <= n <= v
    ensures |entries| == v && forall i :: 0 <= i < v ==> entries[i] == HistoryKey(id, i + 1)
  {
    forall k | k in entries ensures k == HistoryKey(id, Version(k)) && 1 <= Version(k) <= v {
      assert k in s.pub;
      assert HistoryKey(id, Version(k)) in s.pub;
    }
    VersionsAscend(entries, id);
    hide InOrder;
    var ns := seq(|entries|, i requires 0 <= i < |entries| => Version(entries[i]));
    forall n ensures n in ns <==> 1 <= n <= v {
      if 1 <= n <= v {
        assert HistoryKey(id, n) in entries;
        var i :| 0 <= i < |entries| && entries[i] == HistoryKey(id, n);
        assert ns[i] == n;
      }
      if n in ns {
        var i :| 0 <= i < |ns| && ns[i] == n;
        assert entries[i] in entries;
      }
    }
    Counting(ns, v);
    forall i | 0 <= i < |entries| ensures entries[i] == HistoryKey(id, i + 1) {
      assert entries[i] in entries && ns[i] == i + 1;
    }
  }

  /** The entries are the history keys of versions 1 to v. */
  predicate VersionsTo(id: Id, entries: seq<Key>, v: int) {
    |entries| == v && forall i :: 0 <= i < |entries| ==> entries[i] == HistoryKey(id, i + 1)
  }

  lemma WholeListed(s: State, id: Id, entries: seq<Key>)
    requires Whole(s) && Listing(s, HistoryOf(id), entries)
    ensures VersionsTo(id, entries, VersionAt(s, id))
  {
    hide Listing, BatchAt;
    ListedVersions(s, id, entries, VersionAt(s, id));
  }

  /** The history range of a batch is its versions 1 to v, in numeric order. */
  lemma HistoryInOrder(env: Env, rs: seq<Request>, id: Id, entries: seq<Key>)
    requires Listing(Run(env, rs), HistoryOf(id), entries)
    ensures VersionsTo(id, entries, VersionAt(Run(env, rs), id))
  {
    hide Run, Inv, KeysNamed, Whole, Listing, VersionAt;
    RunSane(env, rs);
    WholeListed(Run(env, rs), id, entries);
  }

  // --------------------------------------------------------- history, in full

  /** A history entry stays, with its record. */
  lemma EntryLasts(s: State, u: State, id: Id, k: Key)
    requires KeysLast(s, u) && Whole(s) && Matches(HistoryOf(id), k) && k in s.pub
    ensures k in u.pub && RecordOf(u, k) == RecordOf(s, k)
  {
    hide VersionAt;
    assert Lasting(k) && HistoryKey(id, k.version) in s.pub;
  }

  /** What was seen of a history is there at the last visit. */
  lemma SeenLast(id: Id, vs: seq<Visit>, k: Key, r: Record, now: State)
    requires Chained(HistoryOf(id), now, vs) && Seen(HistoryOf(id), vs, k, r)
    ensures Matches(HistoryOf(id), k) && k in now.pub && RecordOf(now, k) == Some(r)
  {
    hide RecordOf, BookmarkOf, KeysLast, Whole;
    var i :| 0 <= i < |vs| && There(vs[i], HistoryOf(id), k) && RecordOf(vs[i].s, k) == Some(r);
    EntryLasts(vs[i].s, now, id, k);
  }

  /** A version that appeared between two visits comes after the bookmark. */
  lemma AppearsLater(id: Id, v: Visit, start: Option<string>, m: int)
    requires Whole(v.s) && BookmarkOf(v, HistoryOf(id), start) && 1 <= m <= 10 && HistoryKey(id, m) !in v.s.pub
    ensures NotBefore(HistoryKey(id, m), start)
  {
    hide Padded, Power, VersionAt;
    var k :| There(v, HistoryOf(id), k) && Attribute(k) == start.value;
    assert k == HistoryKey(id, k.version);
    TenDigits();
    PaddedOrder(m, k.version, 10);
  }

  /** Every version of the last visit was there, and not before the bookmark, from some visit on. */
  lemma {:induction false} FirstVisit(id: Id, vs: seq<Visit>, now: State, m: int, p: nat) returns (i: nat)
    requires Chained(HistoryOf(id), now, vs) && p < |vs| && 1 <= m <= 10
    requires HistoryKey(id, m) in vs[p].s.pub
    ensures i <= p && HistoryKey(id, m) in vs[i].s.pub && NotBefore(HistoryKey(id, m), vs[i].start)
  {
    hide BookmarkOf, Attribute, KeysLast, Whole;
    if p == 0 {
      i := 0;
    } else if HistoryKey(id, m) in vs[p - 1].s.pub {
      i := FirstVisit(id, vs, now, m, p - 1);
    } else {
      AppearsLater(id, vs[p - 1], vs[p].start, m);
      i := p;
    }
  }

  lemma VersionCollected(id: Id, vs: seq<Visit>, keys: seq<Key>, all: seq<Record>, now: State, m: int)
    requires |vs| > 0 && Chained(HistoryOf(id), now, vs) && Paged(HistoryOf(id), vs, keys, all, None)
    requires 1 <= m <= 10 && HistoryKey(id, m) in vs[|vs| - 1].s.pub
    ensures HistoryKey(id, m) in keys
  {
    hide BookmarkOf, Attribute, InOrder, Seen, KeysLast, Whole, RecordOf;
    var k := HistoryKey(id, m);
    var i := FirstVisit(id, vs, now, m, |vs| - 1);
    forall j | i <= j < |vs| ensures There(vs[j], HistoryOf(id), k) {
      if i < j {
        EntryLasts(vs[i].s, vs[j].s, id, k);
      }
    }
    assert Lasts(HistoryOf(id), vs, i, k);
  }

  /** The records are the receipts of versions 1 to v. */
  ghost predicate IsHistory(s: State, id: Id, all: seq<Record>) {
    && |all| == VersionAt(s, id)
    && forall n {:trigger all[n]} :: 0 <= n < |all| ==> RecordOf(s, HistoryKey(id, n + 1)) == Some(all[n])
  }

  /** A batch's history, read page by page to its end, is its receipts 1 to v as the last page's ledger holds them. */
  lemma HistoryPaged(id: Id, now: State, vs: seq<Visit>, keys: seq<Key>, all: seq<Record>)
    requires |vs| > 0 && vs[|vs| - 1].s == now
    requires Chained(HistoryOf(id), now, vs) && Paged(HistoryOf(id), vs, keys, all, None)
    ensures VersionsTo(id, keys, VersionAt(now, id)) && IsHistory(now, id, all)
  {
    hide Seen, RecordOf, Attribute, InOrder, Paged, BookmarkOf, KeysLast, Whole, Lasts, VersionAt;
    PagedParts(HistoryOf(id), vs, keys, all, None);
    forall n | 0 <= n < |keys|
      ensures keys[n] in now.pub && Matches(HistoryOf(id), keys[n]) && RecordOf(now, keys[n]) == Some(all[n])
    {
      SeenLast(id, vs, keys[n], all[n], now);
    }
    assert Whole(now);
    forall k ensures k in keys <==> k in now.pub && Matches(HistoryOf(id), k) {
      if k in now.pub && Matches(HistoryOf(id), k) {
        WholeBound(now, id, k.version);
        VersionCollected(id, vs, keys, all, now, k.version);
      }
    }
    WholeListed(now, id, keys);
  }

  lemma WholeBound(s: State, id: Id, n: int)
    requires Whole(s) && HistoryKey(id, n) in s.pub
    ensures 1 <= n <= 10
  {
    hide VersionAt;
  }

  lemma {:induction false} AtLeast(ns: seq<int>, i: nat)
    requires i < |ns| && forall a, b :: 0 <= a < b < |ns| ==> ns[a] < ns[b]
    requires ns[0] >= 1
    ensures ns[i] >= i + 1
  {
    if i > 0 {
      AtLeast(ns, i - 1);
    }
  }

  /** No client ever sees more than ten entries of one history. */
  lemma FewKeys(id: Id, now: State, vs: seq<Visit>, keys: seq<Key>, all: seq<Record>)
    requires InOrder(keys) && |all| == |keys| && Chained(HistoryOf(id), now, vs) && Whole(now)
    requires forall n {:trigger keys[n]} :: 0 <= n < |keys| ==> Seen(HistoryOf(id), vs, keys[n], all[n])
    ensures |keys| <= 10
  {
    hide Seen, Chained, RecordOf, InOrder, Whole;
    forall k | k in keys ensures k.HistoryKey? && k.batch == id && 1 <= k.version <= 10 {
      var n :| 0 <= n < |keys| && keys[n] == k;
      SeenLast(id, vs, k, all[n], now);
      WholeBound(now, id, k.version);
    }
    VersionsAscend(keys, id);
    var ns := seq(|keys|, i requires 0 <= i < |keys| => Version(keys[i]));
    if |keys| > 0 {
      assert keys[0] in keys && keys[|keys| - 1] in keys;
      AtLeast(ns, |ns| - 1);
    }
  }

  /**
   * A client reads a batch's history page by page, of any admitted size, while the
   * ledger moves on: it comes to the end, and has receipts 1 to v, each once and in
   * order, v being the batch's version when the last page was read.
   */
  method CollectHistory(peer: Peer, id: Id, size: nat) returns (all: seq<Record>)
    requires peer.Valid() && 1 <= size <= 100
    modifies peer
    ensures peer.Valid() && old(peer.served) <= peer.served && IsHistory(peer.now, id, all)
  {
    hide Run, Chained, Paged, Seen, InOrder, IsHistory, Inv, KeysNamed, Whole;
    var complete: bool;
    ghost var keys, visits;
    all, complete, keys, visits := Collect(peer, HistoryOf(id), size, 12);
    RunSane(peer.env, peer.served);
    if complete {
      HistoryPaged(id, peer.now, visits, keys, all);
    } else {
      FewKeys(id, peer.now, visits, keys, all);
    }
  }
}

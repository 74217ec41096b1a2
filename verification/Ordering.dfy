/** The byte order of ids, and what sorting without repeats means. */
module Ordering {
  import opened Types
  import opened Engine

  lemma {:induction false} BeforeTotal(a: string, b: string)
    ensures a == b || Before(a, b) || Before(b, a)
  {
    if a != "" && b != "" && a[0] == b[0] {
      BeforeTotal(a[1..], b[1..]);
      assert a == [a[0]] + a[1..] && b == [b[0]] + b[1..];
    }
  }

  lemma {:induction false} BeforeTransitive(a: string, b: string, c: string)
    requires Before(a, b) && Before(b, c)
    ensures Before(a, c)
  {
    if a != "" && a[0] == b[0] && b[0] == c[0] {
      BeforeTransitive(a[1..], b[1..], c[1..]);
    }
  }

  lemma {:induction false} BeforeIrreflexive(a: string)
    ensures !Before(a, a)
  {
    if a != "" {
      BeforeIrreflexive(a[1..]);
    }
  }

  predicate Ascending(ids: seq<Id>) {
    forall i, j :: 0 <= i < j < |ids| ==> Before(ids[i].text, ids[j].text)
  }

  lemma {:induction false} InsertFacts(id: Id, ids: seq<Id>)
    requires Ascending(ids)
    ensures Ascending(Insert(id, ids))
    ensures forall x :: x in Insert(id, ids) <==> x == id || x in ids
  {
    if ids == [] || id == ids[0] {
    } else if Before(id.text, ids[0].text) {
      forall j | 1 <= j < |ids| ensures Before(id.text, ids[j].text) {
        BeforeTransitive(id.text, ids[0].text, ids[j].text);
      }
      assert forall x :: x in [id] + ids <==> x == id || x in ids;
    } else {
      var rest := Insert(id, ids[1..]);
      InsertFacts(id, ids[1..]);
      BeforeTotal(id.text, ids[0].text);
      forall j | 0 <= j < |rest| ensures Before(ids[0].text, rest[j].text) {
        assert rest[j] in rest;
      }
      assert ids == [ids[0]] + ids[1..];
    }
  }

  /** A receipt's touched ids are in strictly ascending order, and are exactly the ids that were touched. */
  lemma {:induction false} SortedUniqueFacts(ids: seq<Id>)
    ensures Ascending(SortedUnique(ids))
    ensures forall x :: x in SortedUnique(ids) <==> x in ids
  {
    if ids != [] {
      SortedUniqueFacts(ids[1..]);
      InsertFacts(ids[0], SortedUnique(ids[1..]));
      assert ids == [ids[0]] + ids[1..];
    }
  }

  /** An ascending sequence is determined by its elements. */
  lemma {:induction false} AscendingUnique(a: seq<Id>, b: seq<Id>)
    requires Ascending(a) && Ascending(b) && forall x :: x in a <==> x in b
    ensures a == b
  {
    if a != [] {
      NeitherEmpty(b, a);
    }
    if b != [] {
      NeitherEmpty(a, b);
      SameFirst(a, b);
      forall x ensures x in a[1..] <==> x in b[1..] {
        RestElements(a, x);
        RestElements(b, x);
      }
      AscendingUnique(a[1..], b[1..]);
      assert a == [a[0]] + a[1..] && b == [b[0]] + b[1..];
    }
  }

  lemma NeitherEmpty<T>(a: seq<T>, b: seq<T>)
    requires b != [] && forall x :: x in a <==> x in b
    ensures a != []
  {
    assert b[0] in b;
  }

  lemma RestElements(a: seq<Id>, x: Id)
    requires Ascending(a) && a != []
    ensures x in a[1..] <==> x in a && x != a[0]
  {
    assert a == [a[0]] + a[1..];
    if x in a[1..] {
      var i :| 0 <= i < |a[1..]| && a[1..][i] == x;
      assert Before(a[0].text, a[i + 1].text);
      BeforeIrreflexive(x.text);
    }
  }

  lemma SameFirst(a: seq<Id>, b: seq<Id>)
    requires Ascending(a) && Ascending(b) && a != [] && b != [] && forall x :: x in a <==> x in b
    ensures a[0] == b[0]
  {
    assert a[0] in b && b[0] in a;
    if a[0] != b[0] {
      var i :| 0 <= i < |b| && b[i] == a[0];
      var j :| 0 <= j < |a| && a[j] == b[0];
      BeforeTransitive(a[0].text, a[j].text, b[i].text);
      BeforeIrreflexive(a[0].text);
    }
  }

  // ------------------------------------------------------------------ sorting

  function Place(id: Id, ids: seq<Id>): seq<Id> {
    if ids == [] || Before(id.text, ids[0].text) || id == ids[0] then [id] + ids else [ids[0]] + Place(id, ids[1..])
  }

  /** The library's sort: repeats stay. */
  function Sorted(ids: seq<Id>): seq<Id> {
    if ids == [] then [] else Place(ids[0], Sorted(ids[1..]))
  }

  predicate NonDescending(ids: seq<Id>) {
    forall i, j :: 0 <= i < j < |ids| ==> ids[i] == ids[j] || Before(ids[i].text, ids[j].text)
  }

  lemma {:induction false} PlaceFacts(id: Id, ids: seq<Id>)
    requires NonDescending(ids)
    ensures NonDescending(Place(id, ids))
    ensures forall x :: x in Place(id, ids) <==> x == id || x in ids
  {
    if ids == [] || Before(id.text, ids[0].text) || id == ids[0] {
      forall j | 0 <= j < |ids| ensures id == ids[j] || Before(id.text, ids[j].text) {
        if j > 0 && id != ids[0] && ids[0] != ids[j] {
          BeforeTransitive(id.text, ids[0].text, ids[j].text);
        }
      }
    } else {
      var rest := Place(id, ids[1..]);
      PlaceFacts(id, ids[1..]);
      BeforeTotal(id.text, ids[0].text);
      forall j | 0 <= j < |rest| ensures ids[0] == rest[j] || Before(ids[0].text, rest[j].text) {
        assert rest[j] in rest;
        if rest[j] != id {
          var i :| 0 <= i < |ids[1..]| && ids[1..][i] == rest[j];
          assert ids[i + 1] == rest[j];
        }
      }
      assert ids == [ids[0]] + ids[1..];
    }
  }

  lemma {:induction false} SortedFacts(ids: seq<Id>)
    ensures NonDescending(Sorted(ids))
    ensures forall x :: x in Sorted(ids) <==> x in ids
  {
    if ids != [] {
      SortedFacts(ids[1..]);
      PlaceFacts(ids[0], Sorted(ids[1..]));
      assert ids == [ids[0]] + ids[1..];
    }
  }

  /** Sort, then keep an id only when it differs from the last one kept. */
  method UniqueIds(ids: seq<Id>) returns (out: seq<Id>)
    ensures out == SortedUnique(ids)
    ensures Ascending(out) && forall x :: x in out <==> x in ids
  {
    var sorted := Sorted(ids);
    SortedFacts(ids);
    out := [];
    var i := 0;
    while i < |sorted|
      invariant 0 <= i <= |sorted|
      invariant Ascending(out)
      invariant forall x :: x in out <==> x in sorted[..i]
      invariant if i == 0 then out == [] else out != [] && out[|out| - 1] == sorted[i - 1]
    {
      assert sorted[..i + 1] == sorted[..i] + [sorted[i]];
      if out == [] || out[|out| - 1] != sorted[i] {
        forall k | 0 <= k < |out| ensures Before(out[k].text, sorted[i].text) {
          if k < |out| - 1 {
            BeforeTransitive(out[k].text, out[|out| - 1].text, sorted[i].text);
          }
        }
        out := out + [sorted[i]];
      }
      i := i + 1;
    }
    assert sorted[..i] == sorted;
    SortedUniqueFacts(ids);
    AscendingUnique(out, SortedUnique(ids));
  }
}

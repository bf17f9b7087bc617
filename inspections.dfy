/**
 * The pure operations on the stored list of inspections used by the history
 * and report pages: the search filter, delete by id and find by id.
 */
module Inspections {
  import opened Wrappers
  import opened Text
  import opened ChecklistTypes

  /** `a` is `b` with some elements left out, the rest in order. */
  predicate IsSubsequence<T(==)>(a: seq<T>, b: seq<T>)
    decreases |b|
  {
    a == [] || (b != [] && ((a[0] == b[0] && IsSubsequence(a[1..], b[1..])) || IsSubsequence(a, b[1..])))
  }

  lemma {:induction false} SubsequenceReflexive<T>(a: seq<T>)
    ensures IsSubsequence(a, a)
    decreases |a|
  {
    if a != [] {
      SubsequenceReflexive(a[1..]);
    }
  }

  /** The search predicate: the lower-cased serial number or revision type
      contains the lower-cased term. */
  predicate MatchesSearch(e: ChecklistEntry, term: string)
  {
    Includes(Lower(e.serialNumber), Lower(term)) || Includes(Lower(e.revisionType), Lower(term))
  }

  /** `checklists.filter(matches)`. */
  function Matching(list: seq<ChecklistEntry>, term: string): (r: seq<ChecklistEntry>)
    ensures forall e :: e in r <==> e in list && MatchesSearch(e, term)
    ensures IsSubsequence(r, list)
    decreases |list|
  {
    if list == [] then []
    else if MatchesSearch(list[0], term) then [list[0]] + Matching(list[1..], term)
    else Matching(list[1..], term)
  }

  /** The search effect: everything for the empty term, otherwise the
      entries matching it, in their stored order. */
  function Search(list: seq<ChecklistEntry>, term: string): (r: seq<ChecklistEntry>)
    ensures term == "" ==> r == list
    ensures term != "" ==> forall e :: e in r <==> e in list && MatchesSearch(e, term)
    ensures IsSubsequence(r, list)
  {
    if term != "" then Matching(list, term) else (SubsequenceReflexive(list); list)
  }

  /** Filtering distributes over concatenation, so each entry is kept or
      dropped on its own and the kept ones stay in order. */
  lemma {:induction false} MatchingConcat(a: seq<ChecklistEntry>, b: seq<ChecklistEntry>, term: string)
    ensures Matching(a + b, term) == Matching(a, term) + Matching(b, term)
    decreases |a|
  {
    if a != [] {
      assert (a + b)[1..] == a[1..] + b;
      MatchingConcat(a[1..], b, term);
    } else {
      assert a + b == b;
    }
  }

  /** Only the lower-cased term matters to the filter. */
  lemma {:induction false} MatchingOnlyLowerMatters(list: seq<ChecklistEntry>, t1: string, t2: string)
    requires Lower(t1) == Lower(t2)
    ensures Matching(list, t1) == Matching(list, t2)
    decreases |list|
  {
    if list != [] {
      MatchingOnlyLowerMatters(list[1..], t1, t2);
    }
  }

  /** Search is case-insensitive: terms that lower-case alike give the same list. */
  lemma SearchIgnoresCase(list: seq<ChecklistEntry>, t1: string, t2: string)
    requires Lower(t1) == Lower(t2)
    ensures Search(list, t1) == Search(list, t2)
  {
    assert |t1| == |t2| by { assert |Lower(t1)| == |t1| && |Lower(t2)| == |t2|; }
    MatchingOnlyLowerMatters(list, t1, t2);
  }

  /** In particular, searching for the lower-cased term is the same search. */
  lemma SearchLowerTerm(list: seq<ChecklistEntry>, term: string)
    ensures Search(list, Lower(term)) == Search(list, term)
  {
    LowerIdempotent(term);
    SearchIgnoresCase(list, Lower(term), term);
  }

  lemma {:induction false} MatchingIdempotent(list: seq<ChecklistEntry>, term: string)
    ensures Matching(Matching(list, term), term) == Matching(list, term)
    decreases |list|
  {
    if list != [] {
      MatchingIdempotent(list[1..], term);
    }
  }

  /** Searching the search result again changes nothing. */
  lemma SearchIdempotent(list: seq<ChecklistEntry>, term: string)
    ensures Search(Search(list, term), term) == Search(list, term)
  {
    if term != "" {
      MatchingIdempotent(list, term);
    }
  }

  /** `checklists.filter(c => c.id !== id)`. */
  function WithoutId(list: seq<ChecklistEntry>, id: string): (r: seq<ChecklistEntry>)
    ensures forall e :: e in r <==> e in list && e.id != id
    ensures IsSubsequence(r, list)
    decreases |list|
  {
    if list == [] then []
    else if list[0].id != id then [list[0]] + WithoutId(list[1..], id)
    else WithoutId(list[1..], id)
  }

  /** Deleting an id that no entry carries leaves the list unchanged. */
  lemma {:induction false} WithoutUnknownId(list: seq<ChecklistEntry>, id: string)
    requires forall e :: e in list ==> e.id != id
    ensures WithoutId(list, id) == list
    decreases |list|
  {
    if list != [] {
      assert list[0] in list;
      WithoutUnknownId(list[1..], id);
    }
  }

  /** The number of entries with a given id. */
  function CountId(list: seq<ChecklistEntry>, id: string): nat
    decreases |list|
  {
    if list == [] then 0 else (if list[0].id == id then 1 else 0) + CountId(list[1..], id)
  }

  /** Delete drops exactly the entries with that id. */
  lemma {:induction false} WithoutIdLength(list: seq<ChecklistEntry>, id: string)
    ensures |WithoutId(list, id)| == |list| - CountId(list, id)
    decreases |list|
  {
    if list != [] {
      WithoutIdLength(list[1..], id);
    }
  }

  /** Delete distributes over concatenation: the survivors keep their order. */
  lemma {:induction false} WithoutIdConcat(a: seq<ChecklistEntry>, b: seq<ChecklistEntry>, id: string)
    ensures WithoutId(a + b, id) == WithoutId(a, id) + WithoutId(b, id)
    decreases |a|
  {
    if a != [] {
      var ab := a + b;
      assert ab[0] == a[0];
      assert ab[1..] == a[1..] + b;
      WithoutIdConcat(a[1..], b, id);
      if a[0].id != id {
        calc {
          WithoutId(ab, id);
          [a[0]] + WithoutId(a[1..] + b, id);
          [a[0]] + (WithoutId(a[1..], id) + WithoutId(b, id));
          ([a[0]] + WithoutId(a[1..], id)) + WithoutId(b, id);
        }
      }
    } else {
      assert a + b == b;
    }
  }

  /** Deleting twice is deleting once. */
  lemma WithoutIdIdempotent(list: seq<ChecklistEntry>, id: string)
    ensures WithoutId(WithoutId(list, id), id) == WithoutId(list, id)
  {
  }

  /** `checklists.find(c => c.id === id)`: the first entry with that id. */
  function FindById(list: seq<ChecklistEntry>, id: string): (r: Option<ChecklistEntry>)
    ensures r.Some? <==> exists e :: e in list && e.id == id
    ensures r.Some? ==> r.value in list && r.value.id == id
    decreases |list|
  {
    if list == [] then None
    else if list[0].id == id then Some(list[0])
    else FindById(list[1..], id)
  }

  /** What find returns is the first entry carrying the id. */
  lemma {:induction false} FindByIdIsFirst(list: seq<ChecklistEntry>, id: string, k: nat)
    requires k < |list| && list[k].id == id
    requires forall j :: 0 <= j < k ==> list[j].id != id
    ensures FindById(list, id) == Some(list[k])
    decreases k
  {
    if k > 0 {
      assert list[0].id != id;
      FindByIdIsFirst(list[1..], id, k - 1);
    }
  }

  /** After deleting an id nothing with that id can be found. */
  lemma FindAfterDelete(list: seq<ChecklistEntry>, id: string)
    ensures FindById(WithoutId(list, id), id) == None
  {
  }

  /** Deleting one id does not change what another id finds. */
  lemma {:induction false} DeleteKeepsOthers(list: seq<ChecklistEntry>, id: string, other: string)
    requires other != id
    ensures FindById(WithoutId(list, id), other) == FindById(list, other)
    decreases |list|
  {
    if list != [] {
      DeleteKeepsOthers(list[1..], id, other);
    }
  }

  /** Three records A, B, C with distinct ids: deleting B leaves [A, C]. */
  lemma DeleteMiddle(a: ChecklistEntry, b: ChecklistEntry, c: ChecklistEntry)
    requires a.id != b.id && c.id != b.id
    ensures WithoutId([a, b, c], b.id) == [a, c]
  {
    assert [a, b, c][1..] == [b, c];
    assert [b, c][1..] == [c];
    assert WithoutId([c], b.id) == [c] by { WithoutUnknownId([c], b.id); }
  }
}

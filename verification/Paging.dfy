/** Queries with a limit, as both message tables use them (rabbitmq/transactional_msg.go, rabbitmq/dead_msg.go). */
module Paging {
  const PAGE: nat := 100

  predicate Distinct<T(==)>(s: seq<T>) {
    forall i, j :: 0 <= i < j < |s| ==> s[i] != s[j]
  }

  function Elements<T>(s: seq<T>): set<T> {
    set x | x in s
  }

  function Min(a: nat, b: nat): nat {
    if a <= b then a else b
  }

  /** What a query for these may return: up to a page of them, in any order. */
  predicate IsPage<T(==)>(candidates: set<T>, page: seq<T>) {
    && Distinct(page)
    && (forall i :: 0 <= i < |page| ==> page[i] in candidates)
    && |page| == Min(PAGE, |candidates|)
  }

  method TakePage<T(==)>(candidates: set<T>) returns (page: seq<T>)
    ensures IsPage(candidates, page)
  {
    page := [];
    var left := candidates;
    while |page| < PAGE && left != {}
      invariant left <= candidates && |page| <= PAGE
      invariant Distinct(page)
      invariant forall i :: 0 <= i < |page| ==> page[i] in candidates && page[i] !in left
      invariant |page| + |left| == |candidates|
      decreases left
    {
      var x :| x in left;
      left := left - {x};
      page := page + [x];
    }
  }

  /** A page that is not full has all there is. */
  lemma PageOfFew<T>(candidates: set<T>, page: seq<T>)
    requires IsPage(candidates, page)
    ensures |page| < PAGE ==> forall x :: x in candidates ==> x in page
  {
    ElementsOfDistinct(page);
    if |page| < PAGE {
      assert Elements(page) <= candidates;
      SameSize(Elements(page), candidates);
    }
  }

  lemma SameSize<T>(a: set<T>, b: set<T>)
    requires a <= b && |a| == |b|
    ensures a == b
  {
    forall x | x in b ensures x in a {
      if x !in a {
        Smaller(a, b - {x});
      }
    }
  }

  lemma {:induction false} ElementsOfDistinct<T>(s: seq<T>)
    requires Distinct(s)
    ensures |Elements(s)| == |s|
  {
    if s != [] {
      var n := |s| - 1;
      ElementsOfDistinct(s[..n]);
      assert s == s[..n] + [s[n]];
      assert Elements(s) == Elements(s[..n]) + {s[n]};
      assert s[n] !in Elements(s[..n]);
    }
  }

  lemma ElementsOfMore<T>(s: seq<T>, n: nat)
    requires n < |s|
    ensures Elements(s[..n + 1]) == Elements(s[..n]) + {s[n]}
  {
    assert s[..n + 1] == s[..n] + [s[n]];
  }

  lemma {:induction false} SomePage<T>(candidates: set<T>, k: nat) returns (page: seq<T>)
    requires k <= |candidates|
    ensures |page| == k && Distinct(page) && forall i :: 0 <= i < k ==> page[i] in candidates
  {
    if k == 0 {
      page := [];
    } else {
      var x :| x in candidates;
      var rest := SomePage(candidates - {x}, k - 1);
      page := [x] + rest;
    }
  }

  lemma {:induction false} Smaller<T>(a: set<T>, b: set<T>)
    requires a <= b
    ensures |a| <= |b|
  {
    if a != {} {
      var x :| x in a;
      Smaller(a - {x}, b - {x});
    }
  }
}

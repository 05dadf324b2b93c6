/** The round-robin selector (jsonrpc/jsonrpc.go). */
module RoundRobin {
  import opened Common

  function NextIndex(index: nat, n: nat): nat {
    if index + 1 > n - 1 then 0 else index + 1
  }

  class RoundRobinSelector {
    var index: nat

    constructor ()
      ensures index == 0
    {
      index := 0;
    }

    method Selector(services: seq<string>) returns (chosen: Option<string>)
      modifies this
      ensures chosen.None? <==> services == []
      ensures services == [] ==> index == old(index)
      ensures services != [] ==>
        && index == NextIndex(old(index), |services|) < |services| && chosen == Some(services[index])
        && index == if old(index) + 1 < |services| then old(index) + 1 else 0
    {
      var next := index;
      if |services| == 0 {
        return None;
      }
      next := next + 1;
      if next > |services| - 1 {
        next := 0;
      }
      index := next;
      return Some(services[index]);
    }
  }

  /** How many of `m` calls over `n` services choose service `j`, from position `index` on. */
  function Chosen(index: nat, n: nat, m: nat, j: nat): nat
    decreases m
  {
    if m == 0 then 0
    else
      var next := NextIndex(index, n);
      (if next == j then 1 else 0) + Chosen(next, n, m - 1, j)
  }

  /** Calls that choose others before `j` is next chosen; a position beyond a shrunken list starts over. */
  function Ahead(index: nat, n: nat, j: nat): nat
    requires j < n
  {
    if index >= n then j else if j > index then j - index - 1 else n - index - 1 + j
  }

  lemma AheadStep(index: nat, n: nat, j: nat)
    requires j < n
    ensures Ahead(index, n, j) < n
    ensures var next := NextIndex(index, n);
      if next == j then Ahead(index, n, j) == 0 && Ahead(next, n, j) == n - 1
      else Ahead(next, n, j) == Ahead(index, n, j) - 1
  {
  }

  /** The number of choices that fits: `j` comes after `d` others and then every `n` calls. */
  predicate Fits(count: nat, n: nat, m: nat, d: nat) {
    m <= count * n + d && (count > 0 ==> count * n + d < m + n)
  }

  lemma {:induction false} ChosenEveryN(index: nat, n: nat, m: nat, j: nat)
    requires j < n
    ensures Fits(Chosen(index, n, m, j), n, m, Ahead(index, n, j))
    decreases m
  {
    if m > 0 {
      var next := NextIndex(index, n);
      AheadStep(index, n, j);
      ChosenEveryN(next, n, m - 1, j);
      var later := Chosen(next, n, m - 1, j);
      assert (later + 1) * n == later * n + n;
    }
  }

  lemma MultiplesCompare(a: int, b: int, n: nat)
    requires a * n < b * n
    ensures a < b
  {
    assert (b - a) * n == b * n - a * n;
  }

  /** Any `n` consecutive calls over a stable list of `n` services choose each once. */
  lemma EachOncePerRound(index: nat, n: nat, j: nat)
    requires j < n
    ensures Chosen(index, n, n, j) == 1
  {
    var c := Chosen(index, n, n, j);
    ChosenEveryN(index, n, n, j);
    AheadStep(index, n, j);
    assert c * n < 2 * n;
    MultiplesCompare(c, 2, n);
  }

  lemma CloseCounts(a: nat, b: nat, n: nat, m: nat, d: nat)
    requires a * n < m + n && m <= b * n + d && d < n
    ensures a <= b + 1
  {
    var x, y := a * n, b * n;
    assert x < y + 2 * n;
    assert (b + 2) * n == y + 2 * n;
    MultiplesCompare(a, b + 2, n);
  }

  /** After any number of calls no service has been chosen more than once more than another. */
  lemma CountsDifferByAtMostOne(index: nat, n: nat, m: nat, j: nat, k: nat)
    requires j < n && k < n
    ensures Chosen(index, n, m, j) <= Chosen(index, n, m, k) + 1
  {
    var a, b := Chosen(index, n, m, j), Chosen(index, n, m, k);
    ChosenEveryN(index, n, m, j);
    ChosenEveryN(index, n, m, k);
    AheadStep(index, n, k);
    if a > 0 {
      CloseCounts(a, b, n, m, Ahead(index, n, k));
    }
  }
}

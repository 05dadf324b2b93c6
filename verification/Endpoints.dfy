/** Canonical endpoint lists for the gRPC balancer (reg/nacos/resolver.go). */
module Endpoints {
  import opened Common
  import opened Decimal
  import opened StringOrder

  type Address = string

  predicate Increasing(s: seq<Address>) {
    forall i, j :: 0 <= i < j < |s| ==> Less(s[i], s[j])
  }

  function Members(s: seq<Address>): set<Address> {
    set x | x in s
  }

  /** A strictly increasing list is determined by its members. */
  lemma {:induction false} IncreasingIsUnique(s: seq<Address>, t: seq<Address>)
    requires Increasing(s) && Increasing(t) && Members(s) == Members(t)
    ensures s == t
  {
    assert s != [] ==> s[0] in Members(s);
    assert t != [] ==> t[0] in Members(t);
    if s != [] && t != [] {
      FirstIsLeast(s, t);
      FirstIsLeast(t, s);
      LessIsTotal(s[0], t[0]);
      RestHasTheOthers(s);
      RestHasTheOthers(t);
      IncreasingIsUnique(s[1..], t[1..]);
    }
  }

  lemma FirstIsLeast(s: seq<Address>, t: seq<Address>)
    requires s != [] && t != [] && Increasing(s) && Members(s) == Members(t)
    ensures s[0] == t[0] || Less(s[0], t[0])
  {
    assert t[0] in Members(s);
  }

  lemma RestHasTheOthers(s: seq<Address>)
    requires s != [] && Increasing(s)
    ensures Increasing(s[1..]) && Members(s[1..]) == Members(s) - {s[0]}
  {
    LessIsTotal(s[0], s[0]);
    assert s == [s[0]] + s[1..];
    forall x | x in s[1..] ensures x != s[0] {
      var i :| 0 <= i < |s[1..]| && s[1..][i] == x;
      assert Less(s[0], s[i + 1]);
    }
  }

  ghost predicate AllDiffer(a: array<Address>)
    reads a
  {
    forall i, j :: 0 <= i < j < a.Length ==> a[i] != a[j]
  }

  method Swap(a: array<Address>, i: nat, j: nat)
    requires i < j < a.Length && AllDiffer(a)
    modifies a
    ensures a[i] == old(a[j]) && a[j] == old(a[i])
    ensures forall k :: 0 <= k < a.Length && k != i && k != j ==> a[k] == old(a[k])
    ensures AllDiffer(a) && multiset(a[..]) == multiset(old(a[..]))
  {
    a[i], a[j] := a[j], a[i];
  }

  /** Every pair of positions below `n` is in order, but for those whose later one is `k`. */
  ghost predicate OrderedBut(a: array<Address>, n: nat, k: int)
    reads a
  {
    n <= a.Length && forall i, j :: 0 <= i < j < n && j != k ==> Less(a[i], a[j])
  }

  method Insert(a: array<Address>, n: nat)
    requires n < a.Length && AllDiffer(a) && OrderedBut(a, n, -1)
    modifies a
    ensures AllDiffer(a) && OrderedBut(a, n + 1, -1) && multiset(a[..]) == multiset(old(a[..]))
  {
    var k := n;
    while k > 0 && Less(a[k], a[k - 1])
      invariant 0 <= k <= n && AllDiffer(a) && OrderedBut(a, n + 1, k)
      invariant multiset(a[..]) == multiset(old(a[..]))
    {
      Swap(a, k - 1, k);
      k := k - 1;
    }
    if k > 0 {
      LessIsTotal(a[k - 1], a[k]);
    }
    forall i | 0 <= i < k ensures Less(a[i], a[k]) {
      if i < k - 1 {
        LessIsTransitive(a[i], a[k - 1], a[k]);
      }
    }
  }

  /** The sort of the library, through Less and Swap in place. */
  method Sort(a: array<Address>)
    requires AllDiffer(a)
    modifies a
    ensures OrderedBut(a, a.Length, -1) && multiset(a[..]) == multiset(old(a[..]))
  {
    for n := 0 to a.Length
      invariant AllDiffer(a) && OrderedBut(a, n, -1) && multiset(a[..]) == multiset(old(a[..]))
    {
      Insert(a, n);
    }
  }

  lemma SameMultisetSameMembers(s: seq<Address>, t: seq<Address>)
    requires multiset(s) == multiset(t)
    ensures Members(s) == Members(t)
  {
    forall x ensures x in Members(s) <==> x in Members(t) {
      assert x in s <==> x in multiset(s);
      assert x in t <==> x in multiset(t);
    }
  }

  /** The elements of a set in the order an iteration happens to take. */
  method Listed(addresses: set<Address>) returns (list: seq<Address>)
    ensures Members(list) == addresses && forall i, j :: 0 <= i < j < |list| ==> list[i] != list[j]
  {
    list := [];
    var left := addresses;
    while left != {}
      invariant left <= addresses && (forall x :: x in list <==> x in addresses && x !in left)
      invariant forall i, j :: 0 <= i < j < |list| ==> list[i] != list[j]
      decreases left
    {
      var c :| c in left;
      assert c !in list;
      left := left - {c};
      list := list + [c];
    }
  }

  /** One update of the watcher: a set, its elements in some order, and a sort. */
  method PopulateEndpoints(cc: seq<Address>) returns (conns: seq<Address>)
    ensures Increasing(conns) && Members(conns) == Members(cc)
  {
    var connsSet := {};
    for i := 0 to |cc|
      invariant connsSet == Members(cc[..i])
    {
      assert cc[..i + 1] == cc[..i] + [cc[i]];
      connsSet := connsSet + {cc[i]};
    }
    assert cc[..|cc|] == cc;
    var list := Listed(connsSet);
    var a := new Address[|list|](i requires 0 <= i < |list| => list[i]);
    assert a[..] == list;
    Sort(a);
    conns := a[..];
    SameMultisetSameMembers(conns, list);
  }

  // ---------------------------------------------------------------------------------------
  // From service instances
  // ---------------------------------------------------------------------------------------

  /** `grpcPort` is the metadata entry, empty if there is none. */
  datatype Instance = Instance(ip: string, port: nat, grpcPort: string)

  function AddressOf(s: Instance): Address {
    s.ip + ":" + if s.grpcPort != "" then s.grpcPort else FormatInt(s.port)
  }

  function Addresses(services: seq<Instance>): set<Address> {
    set s | s in services :: AddressOf(s)
  }

  /** One address per instance, in order; a failed query sends nothing. */
  method CallBackHandle(services: seq<Instance>, failed: bool) returns (out: Option<seq<Address>>)
    ensures out.None? <==> failed
    ensures !failed ==>
      && |out.value| == |services| && Members(out.value) == Addresses(services)
      && forall i :: 0 <= i < |services| ==>
           var s := services[i];
           out.value[i] == s.ip + ":" + (if s.grpcPort == "" then FormatInt(s.port) else s.grpcPort)
  {
    if failed {
      return None;
    }
    var ee: seq<Address> := [];
    for i := 0 to |services|
      invariant |ee| == i && forall j :: 0 <= j < i ==> ee[j] == AddressOf(services[j])
    {
      var s := services[i];
      if s.grpcPort != "" {
        ee := ee + [s.ip + ":" + s.grpcPort];
      } else {
        ee := ee + [s.ip + ":" + FormatInt(s.port)];
      }
    }
    assert Members(ee) == Addresses(services);
    return Some(ee);
  }

  /**
   Endpoint lists are canonical: of two updates, in whatever order and however often their
   instances are listed, the balancer gets the same list if and only if the addresses are the same.
   */
  lemma ListsAreCanonical(first: seq<Instance>, second: seq<Instance>, a: seq<Address>, b: seq<Address>)
    requires Increasing(a) && Members(a) == Addresses(first)
    requires Increasing(b) && Members(b) == Addresses(second)
    ensures a == b <==> Addresses(first) == Addresses(second)
  {
    if Addresses(first) == Addresses(second) {
      IncreasingIsUnique(a, b);
    }
  }
}

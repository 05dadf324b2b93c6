/** When the dead-message retry job ends (rabbitmq/rabbitmq.go, rabbitmq/dead_msg.go). */
module DeadRetryEnds {
  import opened DeadLetters
  import opened Paging

  /** Attempts a row still has: at least one, even if the limit has been lowered below its count. */
  function Left(rows: Rows, id: RowId, max: int): nat {
    if id !in LiveIds(rows) then 0
    else if rows[id].retryCount < Attempts(max) then Attempts(max) - rows[id].retryCount
    else 1
  }

  /** The attempts that all rows with ids below `n` still have. */
  function Work(rows: Rows, max: int, n: nat): nat {
    if n == 0 then 0 else Work(rows, max, n - 1) + Left(rows, n - 1, max)
  }

  predicate Served(rows: Rows, listeners: set<string>) {
    forall id :: id in LiveIds(rows) ==> rows[id].queue in listeners
  }

  predicate IdsBelow(rows: Rows, n: nat) {
    forall id :: id in rows ==> id < n
  }

  /** What the attempts of a run may be required to keep to. */
  datatype Rules = Rules(listenersReturn: bool, writesSucceed: bool)

  const ALL := Rules(true, true)

  predicate Keeps(r: Round, h: Rules) {
    forall i :: 0 <= i < |r.attempts| ==>
      (h.listenersReturn ==> !r.attempts[i].outcome.Panics?) && (h.writesSucceed ==> r.attempts[i].writes)
  }

  predicate AllKeep(rounds: seq<Round>, h: Rules) {
    forall i :: 0 <= i < |rounds| ==> Keeps(rounds[i], h)
  }

  lemma {:induction false} WorkChangesByOne(rows: Rows, rows': Rows, id: RowId, max: int, n: nat)
    requires forall j :: j != id ==> Left(rows', j, max) == Left(rows, j, max)
    ensures Work(rows', max, n) - Work(rows, max, n) == if id < n then Left(rows', id, max) - Left(rows, id, max) else 0
  {
    if n > 0 {
      WorkChangesByOne(rows, rows', id, max, n - 1);
    }
  }

  /** Ids are finite in number, so some number is above them all. */
  lemma {:induction false} SomeBound(rows: Rows) returns (n: nat)
    ensures IdsBelow(rows, n)
    decreases rows.Keys
  {
    if rows == map[] {
      n := 0;
    } else {
      var id :| id in rows;
      var below := SomeBound(rows - {id});
      n := if below <= id then id + 1 else below;
      assert forall j :: j in rows ==> j == id || j in rows - {id};
    }
  }

  /** A listener call that returns and is written uses up at least one attempt and spoils no other row. */
  lemma RetryUsesAnAttempt(
    rows: Rows, id: RowId, listeners: set<string>, a: Attempt, max: int, n: nat)
    requires IdsBelow(rows, n)
    requires id in LiveIds(rows) && rows[id].queue in listeners && !a.outcome.Panics? && a.writes
    ensures var rows' := Retried(rows, id, rows[id], listeners, a, max);
      && IdsBelow(rows', n)
      && Work(rows', max, n) < Work(rows, max, n)
      && (forall j :: j != id ==> (j in LiveIds(rows') <==> j in LiveIds(rows)))
      && (forall j :: j != id && j in LiveIds(rows) ==> rows'[j] == rows[j])
      && (forall j :: j in LiveIds(rows') ==> j in LiveIds(rows) && rows'[j].queue == rows[j].queue)
  {
    var rows' := Retried(rows, id, rows[id], listeners, a, max);
    WorkChangesByOne(rows, rows', id, max, n);
  }

  /** The rows not in `done` are as listed, and no row has appeared or changed its queue. */
  predicate OnlyTouched(listed: Rows, rows: Rows, done: seq<RowId>) {
    && (forall j :: j in LiveIds(listed) && j !in done ==> j in LiveIds(rows) && rows[j] == listed[j])
    && (forall j :: j in LiveIds(rows) ==> j in LiveIds(listed) && rows[j].queue == listed[j].queue)
  }

  /** The rows in `done` have been retried: each has used up an attempt. */
  predicate Retrying(listed: Rows, rows: Rows, done: seq<RowId>, max: int, n: nat) {
    && IdsBelow(rows, n) && OnlyTouched(listed, rows, done)
    && Work(rows, max, n) + |done| <= Work(listed, max, n)
  }

  /** `RetryUsesAnAttempt` after other rows of the page. */
  lemma NextRowUsesAnAttempt(listed: Rows, rows: Rows, done: seq<RowId>, id: RowId, listeners: set<string>,
                             a: Attempt, max: int, n: nat)
    requires Retrying(listed, rows, done, max, n)
    requires id in LiveIds(listed) && id !in done && listed[id].queue in listeners && !a.outcome.Panics? && a.writes
    ensures Retrying(listed, Retried(rows, id, listed[id], listeners, a, max), done + [id], max, n)
  {
    RetryUsesAnAttempt(rows, id, listeners, a, max, n);
  }

  lemma {:induction false} PageUsesItsLength(
    listed: Rows, r: Round, listeners: set<string>, max: int, n: nat, k: nat)
    requires IdsBelow(listed, n) && Served(listed, listeners)
    requires IsRound(listed, r) && Keeps(r, ALL) && k <= |r.page|
    ensures var (rows, panicked) := AfterRows(listed, listed, r, listeners, max, k);
      !panicked && Retrying(listed, rows, r.page[..k], max, n)
  {
    if k > 0 {
      var i, id := k - 1, r.page[k - 1];
      PageUsesItsLength(listed, r, listeners, max, n, i);
      var rows := AfterRows(listed, listed, r, listeners, max, i).0;
      assert id in LiveIds(listed) && id !in r.page[..i];
      NextRowUsesAnAttempt(listed, rows, r.page[..i], id, listeners, r.attempts[i], max, n);
      assert r.page[..k] == r.page[..i] + [id];
    }
  }

  /**
   Dead-letter retry terminates: with a listener for every row, no panic and no failed write,
   every round uses up attempts, so no run has more rounds than the live rows have attempts left.
   */
  lemma {:induction false} RoundsBoundedByAttempts(
    rows: Rows, rounds: seq<Round>, listeners: set<string>, max: int, end: Rows, n: nat)
    requires IdsBelow(rows, n) && Served(rows, listeners)
    requires RetryRun(rows, rounds, listeners, max, end) && AllKeep(rounds, ALL)
    ensures |rounds| + Work(end, max, n) <= Work(rows, max, n)
    decreases |rounds|
  {
    if rounds != [] {
      PageUsesItsLength(rows, rounds[0], listeners, max, n, |rounds[0].page|);
      RoundsBoundedByAttempts(AfterRound(rows, rounds[0], listeners, max), rounds[1..], listeners, max, end, n);
    }
  }

  function LiveBelow(rows: Rows, n: nat): set<RowId> {
    set id | id in LiveIds(rows) && id < n
  }

  lemma {:induction false} WorkPerRow(rows: Rows, max: int, n: nat)
    ensures Work(rows, max, n) <= |LiveBelow(rows, n)| * (if max < 1 then 1 else max)
  {
    var a := if max < 1 then 1 else max;
    if n > 0 {
      WorkPerRow(rows, max, n - 1);
      if n - 1 in LiveIds(rows) {
        assert LiveBelow(rows, n) == LiveBelow(rows, n - 1) + {n - 1};
        assert (|LiveBelow(rows, n - 1)| + 1) * a == |LiveBelow(rows, n - 1)| * a + a;
      } else {
        assert LiveBelow(rows, n) == LiveBelow(rows, n - 1);
      }
    } else {
      assert LiveBelow(rows, 0) == {};
    }
  }

  /** So the job has at most as many rounds as there are live rows, times max(1, MaxRetryAttempts). */
  lemma RoundsBoundedByRows(rows: Rows, rounds: seq<Round>, listeners: set<string>, max: int, end: Rows)
    requires Served(rows, listeners) && RetryRun(rows, rounds, listeners, max, end) && AllKeep(rounds, ALL)
    ensures |rounds| <= |LiveIds(rows)| * (if max < 1 then 1 else max)
  {
    var n := SomeBound(rows);
    RoundsBoundedByAttempts(rows, rounds, listeners, max, end, n);
    WorkPerRow(rows, max, n);
    assert LiveBelow(rows, n) == LiveIds(rows);
  }

  // ---------------------------------------------------------------------------------------
  // Rows that never go away
  // ---------------------------------------------------------------------------------------

  lemma {:induction false} UnservedRowStays(
    listed: Rows, r: Round, listeners: set<string>, max: int, id: RowId, k: nat)
    requires IsRound(listed, r) && k <= |r.page|
    requires id in LiveIds(listed) && listed[id].queue !in listeners
    ensures var rows := AfterRows(listed, listed, r, listeners, max, k).0;
      id in LiveIds(rows) && rows[id] == listed[id]
  {
    if k > 0 {
      UnservedRowStays(listed, r, listeners, max, id, k - 1);
    }
  }

  /** A live row whose queue has no listener keeps every listing non-empty, so the loop has runs of any length. */
  lemma {:induction false} UnservedRowNeverEnds(
    rows: Rows, listeners: set<string>, max: int, id: RowId, k: nat) returns (rounds: seq<Round>, end: Rows)
    requires id in LiveIds(rows) && rows[id].queue !in listeners
    ensures |rounds| == k && AllKeep(rounds, ALL) && RetryRun(rows, rounds, listeners, max, end)
    ensures id in LiveIds(end) && end[id] == rows[id]
    decreases k
  {
    if k == 0 {
      return [], rows;
    }
    assert LiveIds(rows) != {};
    var page := SomePage(LiveIds(rows), Min(PAGE, |LiveIds(rows)|));
    assert |page| > 0;
    var r := Round(page, seq(|page|, i => Attempt(Succeeds, true)));
    UnservedRowStays(rows, r, listeners, max, id, |page|);
    var rest, last := UnservedRowNeverEnds(AfterRound(rows, r, listeners, max), listeners, max, id, k - 1);
    rounds, end := [r] + rest, last;
    assert rounds[1..] == rest;
  }

  /** A page on which every call panics, or no write succeeds. */
  predicate Futile(r: Round) {
    forall i :: 0 <= i < |r.attempts| ==> r.attempts[i].outcome.Panics? || !r.attempts[i].writes
  }

  /** It is not charged to any row. */
  lemma {:induction false} FutileChangesNothing(listed: Rows, r: Round, listeners: set<string>, max: int, k: nat)
    requires IsRound(listed, r) && Futile(r) && k <= |r.page|
    ensures AfterRows(listed, listed, r, listeners, max, k).0 == listed
  {
    if k > 0 {
      FutileChangesNothing(listed, r, listeners, max, k - 1);
    }
  }

  /** Panics, or failed writes, keep the loop going for as long as they recur. */
  lemma {:induction false} FutileNeverEnds(rows: Rows, listeners: set<string>, max: int, h: Rules, k: nat)
    returns (rounds: seq<Round>)
    requires LiveIds(rows) != {} && h != ALL
    ensures |rounds| == k && AllKeep(rounds, h) && RetryRun(rows, rounds, listeners, max, rows)
    decreases k
  {
    if k == 0 {
      return [];
    }
    var page := SomePage(LiveIds(rows), Min(PAGE, |LiveIds(rows)|));
    assert |page| > 0;
    var a := if h.listenersReturn then Attempt(Fails, false) else Attempt(Panics, true);
    var r := Round(page, seq(|page|, i => a));
    FutileChangesNothing(rows, r, listeners, max, |page|);
    var rest := FutileNeverEnds(rows, listeners, max, h, k - 1);
    rounds := [r] + rest;
    assert rounds[1..] == rest;
  }

  ghost predicate Bounded(rows: Rows, listeners: set<string>, max: int, h: Rules, bound: nat) {
    forall rounds, end :: RetryRun(rows, rounds, listeners, max, end) && AllKeep(rounds, h) ==> |rounds| <= bound
  }

  lemma BoundedIfServed(rows: Rows, listeners: set<string>, max: int) returns (bound: nat)
    requires Served(rows, listeners)
    ensures Bounded(rows, listeners, max, ALL, bound)
  {
    var n := SomeBound(rows);
    bound := Work(rows, max, n);
    forall rounds, end | RetryRun(rows, rounds, listeners, max, end) && AllKeep(rounds, ALL)
      ensures |rounds| <= bound
    {
      RoundsBoundedByAttempts(rows, rounds, listeners, max, end, n);
    }
  }

  /**
   The job's rounds are bounded if and only if the table has no live row, or every live row's
   queue has a listener, listeners return and writes succeed.
   */
  lemma RetryEndsExactlyIfServed(rows: Rows, listeners: set<string>, max: int, h: Rules)
    ensures (exists bound :: Bounded(rows, listeners, max, h, bound)) <==>
      LiveIds(rows) == {} || (Served(rows, listeners) && h.listenersReturn && h.writesSucceed)
  {
    if LiveIds(rows) == {} {
      assert Bounded(rows, listeners, max, h, 0);
    } else if h != ALL {
      forall bound: nat ensures !Bounded(rows, listeners, max, h, bound) {
        var rounds := FutileNeverEnds(rows, listeners, max, h, bound + 1);
      }
    } else if Served(rows, listeners) {
      var bound := BoundedIfServed(rows, listeners, max);
    } else {
      var id :| id in LiveIds(rows) && rows[id].queue !in listeners;
      forall bound: nat ensures !Bounded(rows, listeners, max, h, bound) {
        var rounds, end := UnservedRowNeverEnds(rows, listeners, max, id, bound + 1);
      }
    }
  }
}

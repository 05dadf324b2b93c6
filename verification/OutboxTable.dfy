/**
 The outbox table (rabbitmq/transactional_msg.go, rabbitmq/po.go), the connection it is reached
 through (orm/gorm.go), and the retry job's loop over it (rabbitmq/rabbitmq.go). Time is in
 seconds.
 */
module OutboxTable {
  import opened Paging

  type Id = string

  const TRIGGER_DELAY: nat := 60
  const KEEP: nat := 604_800      // seven days
  const ROUND_PAUSE: nat := 10

  datatype Row = Row(body: string, triggerTime: nat, delayedTime: nat, createdAt: nat, deleted: bool)

  type Rows = map<Id, Row>

  predicate IsLive(rows: Rows, id: Id) {
    id in rows && !rows[id].deleted
  }

  /** Everything about a row but its mark. */
  predicate SameMessage(a: Row, b: Row) {
    && a.body == b.body && a.triggerTime == b.triggerTime && a.delayedTime == b.delayedTime
    && a.createdAt == b.createdAt
  }

  /** `Delete` on a model with a deletion time only marks the row. */
  function SoftDeleted(rows: Rows, id: Id): Rows {
    if id in rows then rows[id := rows[id].(deleted := true)] else rows
  }

  function SoftDeletedAll(rows: Rows, ids: set<Id>): Rows {
    map id | id in rows :: if id in ids then rows[id].(deleted := true) else rows[id]
  }

  /** The unscoped delete. */
  function Purged(rows: Rows, end: int): Rows {
    map id | id in rows && end <= rows[id].createdAt :: rows[id]
  }

  /** It goes by creation time alone: whether rows have been marked as delivered makes no difference. */
  lemma PurgeIgnoresDelivery(rows: Rows, end: int, delivered: set<Id>)
    ensures Purged(SoftDeletedAll(rows, delivered), end) == SoftDeletedAll(Purged(rows, end), delivered)
    ensures Purged(SoftDeletedAll(rows, delivered), end).Keys == Purged(rows, end).Keys
  {
  }

  function Due(rows: Rows, now: nat): set<Id> {
    set id | id in rows && IsLive(rows, id) && rows[id].triggerTime <= now
  }

  predicate IsListing(rows: Rows, now: nat, ids: seq<Id>) {
    IsPage(Due(rows, now), ids)
  }

  /** A database connection, or a transaction on one: then `rows` and `work` are what it has written. */
  class Connection {
    const parent: Connection?
    var rows: Rows
    var work: seq<nat>

    constructor (parent: Connection?)
      ensures this.parent == parent && rows == map[] && work == []
    {
      this.parent := parent;
      rows, work := map[], [];
    }

    method Begin() returns (tx: Connection)
      ensures fresh(tx) && tx.parent == this && tx.rows == map[] && tx.work == []
    {
      tx := new Connection(this);
    }

    /** `succeeds` is the database's answer; the method does not look at it (orm/gorm.go:72-74). */
    method Commit(succeeds: bool)
      requires parent != null && parent != this
      modifies parent
      ensures parent.rows == if succeeds then old(parent.rows) + rows else old(parent.rows)
      ensures parent.work == if succeeds then old(parent.work) + work else old(parent.work)
    {
      if succeeds {
        parent.rows := parent.rows + rows;
        parent.work := parent.work + work;
      }
    }

    method Rollback()
      modifies this
      ensures rows == map[] && work == []
    {
      rows, work := map[], [];
    }

    method Save(id: Id, row: Row, succeeds: bool) returns (err: bool)
      modifies this`rows
      ensures err == !succeeds
      ensures rows == if succeeds then old(rows)[id := row] else old(rows)
    {
      if succeeds {
        rows := rows[id := row];
      }
      err := !succeeds;
    }

    method DeletedById(id: Id)
      modifies this`rows
      ensures rows == SoftDeleted(old(rows), id)
      ensures rows.Keys == old(rows).Keys && (id in rows ==> rows[id].deleted)
      ensures forall j :: j in rows ==>
        (j != id ==> rows[j] == old(rows)[j]) && SameMessage(rows[j], old(rows)[j])
    {
      if id in rows {
        rows := rows[id := rows[id].(deleted := true)];
      }
    }

    method BatchPhysicsDeletedWithEndTime(end: int)
      modifies this`rows
      ensures rows == Purged(old(rows), end)
    {
      rows := map id | id in rows && end <= rows[id].createdAt :: rows[id];
    }

    /** Up to 100 of the unmarked rows whose trigger time has come, and all of them if there are fewer. */
    method ListTrigerMsg(now: nat) returns (ids: seq<Id>)
      ensures IsListing(rows, now, ids)
      ensures |ids| <= 100 && Distinct(ids)
      ensures forall i :: 0 <= i < |ids| ==>
        ids[i] in rows && !rows[ids[i]].deleted && rows[ids[i]].triggerTime <= now
      ensures |ids| < 100 ==> forall id :: id in rows && !rows[id].deleted && rows[id].triggerTime <= now ==> id in ids
    {
      ids := TakePage(Due(rows, now));
      PageOfFew(Due(rows, now), ids);
    }
  }

  // ---------------------------------------------------------------------------------------
  // The daily purge
  // ---------------------------------------------------------------------------------------

  /** What a turn of `deletedTransactionalMsg` leaves: the rows of the last seven days, as they are. */
  method DeletedTransactionalMsg(conn: Connection, now: nat)
    modifies conn`rows
    ensures forall id :: id in conn.rows <==> id in old(conn.rows) && now <= old(conn.rows)[id].createdAt + 604_800
    ensures forall id :: id in conn.rows ==> conn.rows[id] == old(conn.rows)[id]
  {
    conn.BatchPhysicsDeletedWithEndTime(now - KEEP);
  }

  // ---------------------------------------------------------------------------------------
  // The retry job's loop
  // ---------------------------------------------------------------------------------------

  /** The ids published in the first `n` rounds: their acks may come in at any time from then on. */
  function Sent(sent: seq<seq<Id>>, n: nat): set<Id>
    requires n <= |sent|
  {
    if n == 0 then {} else Sent(sent, n - 1) + Elements(sent[n - 1])
  }

  /** The rows before round `n`: `acks(i)` are the acks that come in after page `i` and before the next listing. */
  function RowsBefore(rows: Rows, acks: nat -> set<Id>, sent: seq<seq<Id>>, n: nat): Rows
    requires n <= |sent|
  {
    if n == 0 then rows
    else SoftDeletedAll(RowsBefore(rows, acks, sent, n - 1), acks(n - 1) * Sent(sent, n))
  }

  function DueBefore(rows: Rows, now: nat, acks: nat -> set<Id>, sent: seq<seq<Id>>, n: nat): set<Id>
    requires n <= |sent|
  {
    Due(RowsBefore(rows, acks, sent, n), now + ROUND_PAUSE * n)
  }

  /** Page `i` was listed in its round, and was not empty, which would have ended the loop. */
  predicate RoundOk(rows: Rows, now: nat, acks: nat -> set<Id>, sent: seq<seq<Id>>, i: nat)
    requires i < |sent|
  {
    IsPage(DueBefore(rows, now, acks, sent, i), sent[i]) && sent[i] != []
  }

  predicate RetryRun(rows: Rows, now: nat, acks: nat -> set<Id>, sent: seq<seq<Id>>) {
    forall i :: 0 <= i < |sent| ==> RoundOk(rows, now, acks, sent, i)
  }

  /** What has happened does not depend on the rounds to come. */
  lemma {:induction false} MoreRounds(rows: Rows, acks: nat -> set<Id>, sent: seq<seq<Id>>, more: seq<seq<Id>>, n: nat)
    requires n <= |sent|
    ensures Sent(sent + more, n) == Sent(sent, n)
    ensures RowsBefore(rows, acks, sent + more, n) == RowsBefore(rows, acks, sent, n)
  {
    if n > 0 {
      MoreRounds(rows, acks, sent, more, n - 1);
      assert (sent + more)[n - 1] == sent[n - 1];
    }
  }

  lemma RoundStays(rows: Rows, now: nat, acks: nat -> set<Id>, sent: seq<seq<Id>>, more: seq<seq<Id>>, i: nat)
    requires i < |sent| && RoundOk(rows, now, acks, sent, i)
    ensures RoundOk(rows, now, acks, sent + more, i)
  {
    MoreRounds(rows, acks, sent, more, i);
    assert (sent + more)[i] == sent[i];
  }

  lemma AppendRound(rows: Rows, now: nat, acks: nat -> set<Id>, sent: seq<seq<Id>>, page: seq<Id>)
    requires RetryRun(rows, now, acks, sent) && IsPage(DueBefore(rows, now, acks, sent, |sent|), page) && page != []
    ensures RetryRun(rows, now, acks, sent + [page])
  {
    var all := sent + [page];
    MoreRounds(rows, acks, sent, [page], |sent|);
    assert all[|sent|] == page && RoundOk(rows, now, acks, all, |sent|);
    forall i | 0 <= i < |all| ensures RoundOk(rows, now, acks, all, i) {
      if i < |sent| {
        RoundStays(rows, now, acks, sent, [page], i);
      }
    }
  }

  /** The next round: the rows before it, and the ids published so far. */
  lemma NextRound(rows: Rows, acks: nat -> set<Id>, sent: seq<seq<Id>>, page: seq<Id>)
    ensures var n, all := |sent|, sent + [page];
      && Sent(all, n + 1) == Sent(sent, n) + Elements(page)
      && RowsBefore(rows, acks, all, n + 1)
         == SoftDeletedAll(RowsBefore(rows, acks, sent, n), acks(n) * (Sent(sent, n) + Elements(page)))
  {
    MoreRounds(rows, acks, sent, [page], |sent|);
    assert (sent + [page])[|sent|] == page;
  }

  lemma MarkOneMore(rows: Rows, ids: set<Id>, id: Id)
    ensures SoftDeleted(SoftDeletedAll(rows, ids), id) == SoftDeletedAll(rows, ids + {id})
  {
  }

  /** The callbacks of these acks: each marks its row. */
  method Confirm(conn: Connection, ids: set<Id>)
    modifies conn`rows
    ensures conn.rows == SoftDeletedAll(old(conn.rows), ids)
  {
    var left := ids;
    while left != {}
      invariant left <= ids && conn.rows == SoftDeletedAll(old(conn.rows), ids - left)
      decreases left
    {
      var id :| id in left;
      MarkOneMore(old(conn.rows), ids - left, id);
      assert ids - left + {id} == ids - (left - {id});
      conn.DeletedById(id);
      left := left - {id};
    }
    assert ids - left == ids;
  }

  /**
   The loop of `rabbitMqMessageRetrySend`. It has no bound of its own; `limit` says how many
   rounds are looked at, and `acks` which confirmations come in between them.
   */
  method RabbitMqMessageRetrySend(conn: Connection, now: nat, acks: nat -> set<Id>, limit: nat)
    returns (sent: seq<seq<Id>>)
    modifies conn`rows
    ensures |sent| <= limit && RetryRun(old(conn.rows), now, acks, sent)
    ensures conn.rows == RowsBefore(old(conn.rows), acks, sent, |sent|)
    ensures |sent| < limit ==>
      forall id :: id in conn.rows && !conn.rows[id].deleted ==> now + 10 * |sent| < conn.rows[id].triggerTime
  {
    sent := [];
    var clock, published := now, {};
    while |sent| < limit
      invariant |sent| <= limit && clock == now + ROUND_PAUSE * |sent| && published == Sent(sent, |sent|)
      invariant RetryRun(old(conn.rows), now, acks, sent)
      invariant conn.rows == RowsBefore(old(conn.rows), acks, sent, |sent|)
      decreases limit - |sent|
    {
      var page := conn.ListTrigerMsg(clock);
      if page == [] {
        assert forall id :: id in conn.rows && !conn.rows[id].deleted ==>
          conn.rows[id].triggerTime <= clock ==> id in page;
        break;
      }
      AppendRound(old(conn.rows), now, acks, sent, page);
      NextRound(old(conn.rows), acks, sent, page);
      published := published + Elements(page);
      Confirm(conn, acks(|sent|) * published);
      sent := sent + [page];
      clock := clock + ROUND_PAUSE;
    }
  }

  // ---------------------------------------------------------------------------------------
  // How many rounds it takes
  // ---------------------------------------------------------------------------------------

  predicate AllDue(rows: Rows, now: nat) {
    forall id :: id in rows && !rows[id].deleted ==> rows[id].triggerTime <= now
  }

  function LiveIds(rows: Rows): set<Id> {
    set id | id in rows && !rows[id].deleted
  }

  lemma MarkingIsSubtracting(rows: Rows, ids: set<Id>)
    ensures LiveIds(SoftDeletedAll(rows, ids)) == LiveIds(rows) - ids
  {
  }

  function LiveBefore(rows: Rows, acks: nat -> set<Id>, sent: seq<seq<Id>>, n: nat): set<Id>
    requires n <= |sent|
  {
    LiveIds(RowsBefore(rows, acks, sent, n))
  }

  lemma LiveStep(rows: Rows, acks: nat -> set<Id>, sent: seq<seq<Id>>, n: nat)
    requires n < |sent|
    ensures LiveBefore(rows, acks, sent, n + 1) == LiveBefore(rows, acks, sent, n) - acks(n) * Sent(sent, n + 1)
  {
    MarkingIsSubtracting(RowsBefore(rows, acks, sent, n), acks(n) * Sent(sent, n + 1));
  }

  lemma {:induction false} StaysAllDue(rows: Rows, now: nat, acks: nat -> set<Id>, sent: seq<seq<Id>>, n: nat)
    requires n <= |sent| && AllDue(rows, now)
    ensures AllDue(RowsBefore(rows, acks, sent, n), now)
  {
    if n > 0 {
      StaysAllDue(rows, now, acks, sent, n - 1);
    }
  }

  /** If every live row is due at the start, then in every round the due rows are the live ones. */
  lemma LiveIsDue(rows: Rows, now: nat, acks: nat -> set<Id>, sent: seq<seq<Id>>, n: nat)
    requires n <= |sent| && AllDue(rows, now)
    ensures DueBefore(rows, now, acks, sent, n) == LiveBefore(rows, acks, sent, n)
  {
    StaysAllDue(rows, now, acks, sent, n);
  }

  /** A page then has live rows, and as many as there are or fit. */
  lemma PageIsLive(rows: Rows, now: nat, acks: nat -> set<Id>, sent: seq<seq<Id>>, n: nat)
    requires n < |sent| && RetryRun(rows, now, acks, sent) && AllDue(rows, now)
    ensures var live := LiveBefore(rows, acks, sent, n);
      && live != {} && sent[n] != [] && Elements(sent[n]) <= live
      && |Elements(sent[n])| == Min(PAGE, |live|)
  {
    LiveIsDue(rows, now, acks, sent, n);
    assert RoundOk(rows, now, acks, sent, n);
    ElementsOfDistinct(sent[n]);
    assert sent[n][0] in Elements(sent[n]);
  }

  ghost predicate PromptAcks(acks: nat -> set<Id>, sent: seq<seq<Id>>) {
    forall i: nat :: i < |sent| ==> Elements(sent[i]) <= acks(i)
  }

  lemma {:induction false} SentIsMarked(rows: Rows, acks: nat -> set<Id>, sent: seq<seq<Id>>, n: nat)
    requires n <= |sent| && PromptAcks(acks, sent)
    ensures LiveBefore(rows, acks, sent, n) == LiveIds(rows) - Sent(sent, n)
  {
    if n > 0 {
      var live, page, before := LiveIds(rows), Elements(sent[n - 1]), Sent(sent, n - 1);
      SentIsMarked(rows, acks, sent, n - 1);
      LiveStep(rows, acks, sent, n - 1);
      assert page <= acks(n - 1) && Sent(sent, n) == before + page;
      assert live - before - acks(n - 1) * (before + page) == live - (before + page);
    }
  }

  /** With prompt acks each page takes its length off the live rows. */
  lemma RoundShrinksLive(rows: Rows, now: nat, acks: nat -> set<Id>, sent: seq<seq<Id>>, n: nat)
    requires n < |sent| && RetryRun(rows, now, acks, sent) && AllDue(rows, now) && PromptAcks(acks, sent)
    ensures var before := |LiveBefore(rows, acks, sent, n)|;
      |LiveBefore(rows, acks, sent, n + 1)| == before - Min(PAGE, before) && before > 0
  {
    var before, page := LiveBefore(rows, acks, sent, n), Elements(sent[n]);
    PageIsLive(rows, now, acks, sent, n);
    SentIsMarked(rows, acks, sent, n);
    SentIsMarked(rows, acks, sent, n + 1);
    assert Sent(sent, n + 1) == Sent(sent, n) + page;
    assert LiveBefore(rows, acks, sent, n + 1) == before - page;
  }

  lemma {:induction false} RoundsShrinkLive(rows: Rows, now: nat, acks: nat -> set<Id>, sent: seq<seq<Id>>, n: nat)
    requires n <= |sent| && RetryRun(rows, now, acks, sent) && AllDue(rows, now) && PromptAcks(acks, sent)
    ensures var total, left := |LiveIds(rows)|, |LiveBefore(rows, acks, sent, n)|;
      left == if total > PAGE * n then total - PAGE * n else 0
  {
    if n > 0 {
      RoundsShrinkLive(rows, now, acks, sent, n - 1);
      RoundShrinksLive(rows, now, acks, sent, n - 1);
    }
  }

  /**
   If every live row is due and each page is acked before the next listing, the job publishes
   for exactly the number of rounds that n rows fill pages.
   */
  lemma RetryEndsAfterAllPages(rows: Rows, now: nat, acks: nat -> set<Id>, sent: seq<seq<Id>>)
    requires RetryRun(rows, now, acks, sent) && AllDue(rows, now) && PromptAcks(acks, sent)
    ensures DueBefore(rows, now, acks, sent, |sent|) == {} <==> |sent| == (|Due(rows, now)| + 99) / 100
  {
    assert Due(rows, now) == LiveIds(rows);
    LiveIsDue(rows, now, acks, sent, |sent|);
    RoundsShrinkLive(rows, now, acks, sent, |sent|);
    var left := |LiveBefore(rows, acks, sent, |sent|)|;
    assert DueBefore(rows, now, acks, sent, |sent|) == {} <==> left == 0;
    if sent != [] {
      RoundsShrinkLive(rows, now, acks, sent, |sent| - 1);
      RoundShrinksLive(rows, now, acks, sent, |sent| - 1);
      assert |LiveIds(rows)| > PAGE * (|sent| - 1);
    }
  }

  // ---------------------------------------------------------------------------------------
  // When it ends at all
  // ---------------------------------------------------------------------------------------

  /** Acks come for these ids only, and for each within `lag` rounds of a publish. */
  ghost predicate Answered(acks: nat -> set<Id>, sent: seq<seq<Id>>, answered: set<Id>, lag: nat) {
    && (forall i: nat :: acks(i) <= answered)
    && (forall i: nat, id :: i + lag < |sent| && id in sent[i] && id in answered ==> AckedWithin(acks, id, i, lag))
  }

  ghost predicate AckedWithin(acks: nat -> set<Id>, id: Id, i: nat, lag: nat) {
    exists k: nat :: i <= k <= i + lag && id in acks(k)
  }

  lemma {:induction false} MarkedStays(rows: Rows, acks: nat -> set<Id>, sent: seq<seq<Id>>, m: nat, n: nat)
    requires m <= n <= |sent|
    ensures LiveBefore(rows, acks, sent, n) <= LiveBefore(rows, acks, sent, m)
    ensures Sent(sent, m) <= Sent(sent, n)
  {
    if m < n {
      MarkedStays(rows, acks, sent, m, n - 1);
      LiveStep(rows, acks, sent, n - 1);
    }
  }

  lemma AckMarks(rows: Rows, acks: nat -> set<Id>, sent: seq<seq<Id>>, id: Id, i: nat, k: nat, n: nat)
    requires i <= k < n <= |sent| && id in sent[i] && id in acks(k)
    ensures id !in LiveBefore(rows, acks, sent, n)
  {
    assert id in Sent(sent, i + 1);
    MarkedStays(rows, acks, sent, i + 1, k + 1);
    LiveStep(rows, acks, sent, k);
    MarkedStays(rows, acks, sent, k + 1, n);
  }

  /** In any `lag + 1` rounds some row goes. */
  lemma SomeRowGoes(
    rows: Rows, now: nat, acks: nat -> set<Id>, sent: seq<seq<Id>>, answered: set<Id>, lag: nat, m: nat)
    requires RetryRun(rows, now, acks, sent) && AllDue(rows, now) && Answered(acks, sent, answered, lag)
    requires LiveIds(rows) <= answered && m + lag < |sent|
    ensures |LiveBefore(rows, acks, sent, m + lag + 1)| < |LiveBefore(rows, acks, sent, m)|
  {
    var live, later := LiveBefore(rows, acks, sent, m), LiveBefore(rows, acks, sent, m + lag + 1);
    PageIsLive(rows, now, acks, sent, m);
    MarkedStays(rows, acks, sent, 0, m);
    MarkedStays(rows, acks, sent, m, m + lag + 1);
    var id := sent[m][0];
    assert id in Elements(sent[m]);
    assert AckedWithin(acks, id, m, lag);
    var k: nat :| m <= k <= m + lag && id in acks(k);
    AckMarks(rows, acks, sent, id, m, k, m + lag + 1);
    Smaller(later, live - {id});
  }

  lemma {:induction false} RoundsPerRow(
    rows: Rows, now: nat, acks: nat -> set<Id>, sent: seq<seq<Id>>, answered: set<Id>, lag: nat, k: nat)
    requires RetryRun(rows, now, acks, sent) && AllDue(rows, now) && Answered(acks, sent, answered, lag)
    requires LiveIds(rows) <= answered && k * (lag + 1) <= |sent|
    ensures |LiveBefore(rows, acks, sent, k * (lag + 1))| + k <= |LiveIds(rows)|
  {
    if k > 0 {
      var m := (k - 1) * (lag + 1);
      assert k * (lag + 1) == m + lag + 1;
      RoundsPerRow(rows, now, acks, sent, answered, lag, k - 1);
      SomeRowGoes(rows, now, acks, sent, answered, lag, m);
    }
  }

  ghost predicate Bounded(rows: Rows, now: nat, answered: set<Id>, lag: nat, bound: nat) {
    forall acks: nat -> set<Id>, sent :: RetryRun(rows, now, acks, sent) && Answered(acks, sent, answered, lag)
      ==> |sent| <= bound
  }

  lemma BoundedIfAnswered(rows: Rows, now: nat, answered: set<Id>, lag: nat) returns (bound: nat)
    requires AllDue(rows, now) && LiveIds(rows) <= answered
    ensures Bounded(rows, now, answered, lag, bound)
  {
    var n := |LiveIds(rows)|;
    bound := (n + 1) * (lag + 1);
    forall acks: nat -> set<Id>, sent | RetryRun(rows, now, acks, sent) && Answered(acks, sent, answered, lag)
      ensures |sent| <= bound
    {
      if |sent| > bound {
        RoundsPerRow(rows, now, acks, sent, answered, lag, n + 1);
      }
    }
  }

  /** A due row whose ack never comes stays due, whatever else is acked. */
  lemma {:induction false} UnackedRowStaysDue(
    rows: Rows, now: nat, acks: nat -> set<Id>, sent: seq<seq<Id>>, id: Id, n: nat)
    requires n <= |sent| && id in Due(rows, now) && forall i :: id !in acks(i)
    ensures id in DueBefore(rows, now, acks, sent, n)
    ensures RowsBefore(rows, acks, sent, n)[id] == rows[id]
  {
    if n > 0 {
      UnackedRowStaysDue(rows, now, acks, sent, id, n - 1);
    }
  }

  /** It keeps the job going for any number of rounds. */
  lemma {:induction false} UnackedRowNeverEnds(rows: Rows, now: nat, acks: nat -> set<Id>, id: Id, k: nat)
    returns (sent: seq<seq<Id>>)
    requires id in Due(rows, now) && forall i :: id !in acks(i)
    ensures |sent| == k && RetryRun(rows, now, acks, sent)
    decreases k
  {
    if k == 0 {
      sent := [];
    } else {
      sent := UnackedRowNeverEnds(rows, now, acks, id, k - 1);
      UnackedRowStaysDue(rows, now, acks, sent, id, |sent|);
      var due := DueBefore(rows, now, acks, sent, |sent|);
      assert due != {};
      var page := SomePage(due, Min(PAGE, |due|));
      AppendRound(rows, now, acks, sent, page);
      sent := sent + [page];
    }
  }

  /** Acks for all of these in every round. */
  function Always(answered: set<Id>): nat -> set<Id> {
    (i: nat) => answered
  }

  lemma AnsweredAtOnce(answered: set<Id>, lag: nat, sent: seq<seq<Id>>)
    ensures Answered(Always(answered), sent, answered, lag)
  {
    var acks := Always(answered);
    forall i: nat, id | i + lag < |sent| && id in sent[i] && id in answered ensures AckedWithin(acks, id, i, lag) {
      assert id in acks(i);
    }
  }

  /**
   The loop ends: if every live row is due, the rounds are bounded if and only if every one of
   them is answered, however many rounds late.
   */
  lemma RetryEndsExactlyIfAnswered(rows: Rows, now: nat, answered: set<Id>, lag: nat)
    requires AllDue(rows, now)
    ensures (exists bound :: Bounded(rows, now, answered, lag, bound)) <==> LiveIds(rows) <= answered
  {
    if LiveIds(rows) <= answered {
      var bound := BoundedIfAnswered(rows, now, answered, lag);
    } else {
      var id :| id in LiveIds(rows) && id !in answered;
      var acks := Always(answered);
      forall bound: nat ensures !Bounded(rows, now, answered, lag, bound) {
        var sent := UnackedRowNeverEnds(rows, now, acks, id, bound + 1);
        AnsweredAtOnce(answered, lag, sent);
      }
    }
  }
}

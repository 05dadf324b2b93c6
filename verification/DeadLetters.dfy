/**
 Settling deliveries, the dead-message table and its retry job (rabbitmq/rabbitmq.go,
 rabbitmq/listener.go, rabbitmq/dead_msg.go).
 */
module DeadLetters {
  import opened Common
  import opened Paging

  type RowId = nat

  /** How a call of OnDelivery ends. */
  datatype Outcome = Succeeds | Fails | Panics

  datatype AckParam = AckParam(multipart: bool, requeue: bool)

  /** What the consumer tells the broker about a delivery. */
  datatype Reply = NoReply | Ack(multiple: bool) | Nack(multiple: bool, requeue: bool)

  datatype Row = Row(messageId: string, queue: string, body: string, retryCount: nat, deleted: bool)

  type Rows = map<RowId, Row>

  // ---------------------------------------------------------------------------------------
  // Settling a delivery
  // ---------------------------------------------------------------------------------------

  class Delivery {
    const messageId: string
    const body: string
    const firstDeathQueue: Option<string>
    var redelivered: bool

    constructor (messageId: string, body: string, firstDeathQueue: Option<string>, redelivered: bool)
      ensures this.messageId == messageId && this.body == body
      ensures this.firstDeathQueue == firstDeathQueue && this.redelivered == redelivered
    {
      this.messageId, this.body, this.firstDeathQueue := messageId, body, firstDeathQueue;
      this.redelivered := redelivered;
    }
  }

  /** The consumer's reply as a function of the outcome and of the flag as OnDelivery leaves it. */
  function Settled(autoAck: bool, ack: AckParam, outcome: Outcome, redelivered: bool): Reply {
    if autoAck then NoReply
    else
      match outcome
      case Succeeds => Ack(ack.multipart)
      case Panics => Nack(ack.multipart, false)
      case Fails => Nack(ack.multipart, ack.requeue && !redelivered)
  }

  /** The dead listener asks for requeueing of single deliveries (rabbitmq/listener.go:65-67). */
  const DEAD_ACK := AckParam(false, true)

  /** Its replies: OnDelivery has cleared the flag, so every failure is requeued. */
  function DeadReply(outcome: Outcome): Reply {
    Settled(false, DEAD_ACK, outcome, false)
  }

  /** The worker's code after OnDelivery has returned or panicked. */
  method Settle(autoAck: bool, ack: AckParam, outcome: Outcome, delivery: Delivery) returns (reply: Reply)
    ensures reply == Settled(autoAck, ack, outcome, delivery.redelivered)
    ensures autoAck <==> reply.NoReply?
    ensures !autoAck ==>
      match outcome
      case Succeeds => reply == Ack(ack.multipart)
      case Fails => reply == Nack(ack.multipart, ack.requeue && !delivery.redelivered)
      case Panics => reply == Nack(ack.multipart, false)
  {
    if outcome.Panics? {
      if !autoAck {
        return Nack(ack.multipart, false);
      }
      return NoReply;
    }
    if outcome.Succeeds? {
      if !autoAck {
        return Ack(ack.multipart);
      }
      return NoReply;
    }
    if autoAck {
      return NoReply;
    }
    if ack.requeue && !delivery.redelivered {
      return Nack(ack.multipart, true);
    }
    return Nack(ack.multipart, false);
  }

  // ---------------------------------------------------------------------------------------
  // The table and the dead-message listener
  // ---------------------------------------------------------------------------------------

  function LiveIds(rows: Rows): set<RowId> {
    set id | id in rows && !rows[id].deleted
  }

  predicate IsListing(rows: Rows, ids: seq<RowId>) {
    IsPage(LiveIds(rows), ids)
  }

  /** `MaxRetryAttempts` of zero or less still allows the attempt that finds it exceeded. */
  function Attempts(max: int): nat {
    if max < 1 then 1 else max
  }

  function Failed(row: Row, max: int): Row {
    row.(retryCount := row.retryCount + 1, deleted := row.retryCount + 1 >= max)
  }

  /** How one retried row fares: how the listener's call ends, and whether the write after it succeeds. */
  datatype Attempt = Attempt(outcome: Outcome, writes: bool)

  /** The message a row holds, which no retry changes. */
  predicate SameMessage(a: Row, b: Row) {
    a.messageId == b.messageId && a.queue == b.queue && a.body == b.body
  }

  /** Every row of `after` is one of `before`, with the same message. */
  ghost predicate KeepsMessages(before: Rows, after: Rows) {
    forall id :: id in after ==> id in before && SameMessage(after[id], before[id])
  }

  /** One row of the job: without a listener, on a panic and on a failed write it stays as it is. */
  function Retried(rows: Rows, id: RowId, row: Row, listeners: set<string>, a: Attempt, max: int): Rows {
    if row.queue !in listeners || !a.writes then rows
    else
      match a.outcome
      case Succeeds => rows - {id}
      case Fails => rows[id := Failed(row, max)]
      case Panics => rows
  }

  class Table {
    var rows: Rows
    var next: RowId

    ghost predicate Valid()
      reads this
    {
      forall id :: id in rows ==> id < next
    }

    constructor ()
      ensures Valid() && rows == map[] && next == 0
    {
      rows, next := map[], 0;
    }

    /** `Save` without an id inserts under the next one. */
    method Insert(row: Row, succeeds: bool) returns (err: bool)
      requires Valid()
      modifies this
      ensures Valid() && err == !succeeds
      ensures rows == if succeeds then old(rows)[old(next) := row] else old(rows)
      ensures next == old(next) + if succeeds then 1 else 0
    {
      if succeeds {
        rows, next := rows[next := row], next + 1;
      }
      err := !succeeds;
    }

    /** `Save` with an id overwrites every column. */
    method Upsert(id: RowId, row: Row, succeeds: bool) returns (err: bool)
      requires Valid() && id < next
      modifies this`rows
      ensures Valid() && err == !succeeds
      ensures rows == if succeeds then old(rows)[id := row] else old(rows)
    {
      if succeeds {
        rows := rows[id := row];
      }
      err := !succeeds;
    }

    method DeletedByIdUnscoped(id: RowId, succeeds: bool) returns (err: bool)
      requires Valid()
      modifies this`rows
      ensures Valid() && err == !succeeds
      ensures rows == if succeeds then old(rows) - {id} else old(rows)
    {
      if succeeds {
        rows := rows - {id};
      }
      err := !succeeds;
    }

    /** Up to 100 of the unmarked rows, and all of them if there are fewer. */
    method ListTrigerMsg() returns (ids: seq<RowId>)
      ensures IsListing(rows, ids)
      ensures |ids| <= 100 && Distinct(ids)
      ensures forall i :: 0 <= i < |ids| ==> ids[i] in rows && !rows[ids[i]].deleted
      ensures |ids| < 100 ==> forall id :: id in rows && !rows[id].deleted ==> id in ids
    {
      ids := TakePage(LiveIds(rows));
      PageOfFew(LiveIds(rows), ids);
    }

    /** The dead listener's OnDelivery. */
    method OnDelivery(delivery: Delivery, marshals: bool, saves: bool) returns (outcome: Outcome)
      requires Valid()
      modifies this, delivery
      ensures Valid() && !delivery.redelivered
      ensures outcome ==
        if !marshals then Fails
        else if delivery.firstDeathQueue.None? then Panics
        else if saves then Succeeds else Fails
      ensures outcome.Succeeds? ==>
        && next == old(next) + 1
        && rows == old(rows)[old(next) :=
             Row(delivery.messageId, delivery.firstDeathQueue.value, delivery.body, 0, false)]
      ensures !outcome.Succeeds? ==> rows == old(rows) && next == old(next)
    {
      delivery.redelivered := false;
      if !marshals {
        return Fails;
      }
      if delivery.firstDeathQueue.None? {
        // The unchecked type assertion on the missing header.
        return Panics;
      }
      var err := Insert(Row(delivery.messageId, delivery.firstDeathQueue.value, delivery.body, 0, false), saves);
      return if err then Fails else Succeeds;
    }

    /** The dead queue's worker: its listener asks for requeueing and reads the flag it has just cleared. */
    method ConsumeDead(delivery: Delivery, marshals: bool, saves: bool) returns (reply: Reply)
      requires Valid()
      modifies this, delivery
      ensures Valid()
      ensures reply ==
        if !marshals then Nack(false, true)
        else if delivery.firstDeathQueue.None? then Nack(false, false)
        else if saves then Ack(false) else Nack(false, true)
      ensures reply.Ack? ==>
        rows == old(rows)[old(next) :=
          Row(delivery.messageId, delivery.firstDeathQueue.value, delivery.body, 0, false)]
      ensures !reply.Ack? ==> rows == old(rows)
    {
      var outcome := OnDelivery(delivery, marshals, saves);
      reply := Settle(false, DEAD_ACK, outcome, delivery);
    }

    /** One listed row: `row` is the copy from the listing. */
    method DoRetry(id: RowId, row: Row, listeners: set<string>, a: Attempt, max: int)
      returns (panicked: bool, err: bool)
      requires Valid() && id < next
      modifies this`rows
      ensures Valid() && rows == Retried(old(rows), id, row, listeners, a, max)
      ensures panicked <==> row.queue in listeners && a.outcome.Panics?
      ensures err <==> row.queue !in listeners || (!a.outcome.Panics? && !a.writes)
      // The same outright.
      ensures forall j :: j != id ==> (j in rows <==> j in old(rows)) && (j in rows ==> rows[j] == old(rows)[j])
      ensures var written := row.queue in listeners && a.writes;
        match a.outcome
        case Succeeds => if written then id !in rows else rows == old(rows)
        case Panics => rows == old(rows)
        case Fails =>
          if !written then rows == old(rows)
          else
            && id in rows && SameMessage(rows[id], row)
            && rows[id].retryCount == row.retryCount + 1 && (rows[id].deleted <==> row.retryCount + 1 >= max)
    {
      panicked, err := false, false;
      if row.queue !in listeners {
        return false, true;
      }
      match a.outcome
      case Panics =>
        panicked := true;
      case Fails =>
        var count := row.retryCount + 1;
        err := Upsert(id, row.(retryCount := count, deleted := count >= max), a.writes);
      case Succeeds =>
        err := DeletedByIdUnscoped(id, a.writes);
    }
  }

  // ---------------------------------------------------------------------------------------
  // The retry job
  // ---------------------------------------------------------------------------------------

  /** A page with the attempt for each of its rows. */
  datatype Round = Round(page: seq<RowId>, attempts: seq<Attempt>)

  /** The first `n` rows of a page, up to the first panic. */
  function AfterRows(rows: Rows, listed: Rows, r: Round, listeners: set<string>, max: int, n: nat): (Rows, bool)
    requires n <= |r.page| == |r.attempts| && forall i :: 0 <= i < |r.page| ==> r.page[i] in listed
  {
    if n == 0 then (rows, false)
    else
      var (before, panicked) := AfterRows(rows, listed, r, listeners, max, n - 1);
      var row := listed[r.page[n - 1]];
      if panicked then (before, true)
      else
        (Retried(before, r.page[n - 1], row, listeners, r.attempts[n - 1], max),
         row.queue in listeners && r.attempts[n - 1].outcome.Panics?)
  }

  predicate IsRound(rows: Rows, r: Round) {
    IsListing(rows, r.page) && r.page != [] && |r.attempts| == |r.page|
  }

  function AfterRound(rows: Rows, r: Round, listeners: set<string>, max: int): Rows
    requires IsRound(rows, r)
  {
    AfterRows(rows, rows, r, listeners, max, |r.page|).0
  }

  ghost predicate RetryRun(rows: Rows, rounds: seq<Round>, listeners: set<string>, max: int, end: Rows)
    decreases |rounds|
  {
    if rounds == [] then end == rows
    else
      && IsRound(rows, rounds[0])
      && RetryRun(AfterRound(rows, rounds[0], listeners, max), rounds[1..], listeners, max, end)
  }

  lemma {:induction false} AppendRound(
    rows: Rows, rounds: seq<Round>, listeners: set<string>, max: int, mid: Rows, r: Round)
    requires RetryRun(rows, rounds, listeners, max, mid) && IsRound(mid, r)
    ensures RetryRun(rows, rounds + [r], listeners, max, AfterRound(mid, r, listeners, max))
    decreases |rounds|
  {
    if rounds == [] {
      assert (rounds + [r])[1..] == [];
    } else {
      assert (rounds + [r])[1..] == rounds[1..] + [r];
      AppendRound(AfterRound(rows, rounds[0], listeners, max), rounds[1..], listeners, max, mid, r);
    }
  }

  /** Retrying a row from a copy that has its message leaves every message as it was. */
  lemma RetriedKeepsMessages(
    before: Rows, rows: Rows, id: RowId, row: Row, listeners: set<string>, a: Attempt, max: int)
    requires KeepsMessages(before, rows) && id in before && SameMessage(row, before[id])
    ensures KeepsMessages(before, Retried(rows, id, row, listeners, a, max))
  {
  }

  lemma {:induction false} RowsKeepMessages(listed: Rows, r: Round, listeners: set<string>, max: int, n: nat)
    requires IsRound(listed, r) && n <= |r.page|
    ensures KeepsMessages(listed, AfterRows(listed, listed, r, listeners, max, n).0)
  {
    if n > 0 {
      RowsKeepMessages(listed, r, listeners, max, n - 1);
      var id := r.page[n - 1];
      RetriedKeepsMessages(listed, AfterRows(listed, listed, r, listeners, max, n - 1).0, id, listed[id], listeners,
                           r.attempts[n - 1], max);
    }
  }

  /** No retry run changes a message: what is left of the table has the ids, queues and bodies it had. */
  lemma {:induction false} RetryRunKeepsMessages(
    rows: Rows, rounds: seq<Round>, listeners: set<string>, max: int, end: Rows)
    requires RetryRun(rows, rounds, listeners, max, end)
    ensures KeepsMessages(rows, end)
    decreases |rounds|
  {
    if rounds != [] {
      RowsKeepMessages(rows, rounds[0], listeners, max, |rounds[0].page|);
      RetryRunKeepsMessages(AfterRound(rows, rounds[0], listeners, max), rounds[1..], listeners, max, end);
    }
  }

  /** The rows of one page, in order; a panic ends the job's turn. */
  method RetryPage(table: Table, r: Round, listeners: set<string>, max: int)
    requires table.Valid() && IsRound(table.rows, r)
    modifies table`rows
    ensures table.Valid() && table.rows == AfterRound(old(table.rows), r, listeners, max)
    ensures KeepsMessages(old(table.rows), table.rows)
  {
    RowsKeepMessages(table.rows, r, listeners, max, |r.page|);
    ghost var listed := table.rows;
    var copies := table.rows;
    for i := 0 to |r.page|
      invariant table.Valid() && (forall id :: id in listed ==> id < table.next)
      invariant copies == listed && (table.rows, false) == AfterRows(listed, listed, r, listeners, max, i)
    {
      var panicked, _ := table.DoRetry(r.page[i], copies[r.page[i]], listeners, r.attempts[i], max);
      if panicked {
        PanicEndsThePage(listed, r, listeners, max, i + 1, |r.page|);
        return;
      }
    }
  }

  lemma {:induction false} PanicEndsThePage(
    listed: Rows, r: Round, listeners: set<string>, max: int, i: nat, n: nat)
    requires i <= n <= |r.page| == |r.attempts| && forall i :: 0 <= i < |r.page| ==> r.page[i] in listed
    requires AfterRows(listed, listed, r, listeners, max, i).1
    ensures AfterRows(listed, listed, r, listeners, max, n) == AfterRows(listed, listed, r, listeners, max, i)
  {
    if i < n {
      PanicEndsThePage(listed, r, listeners, max, i, n - 1);
    }
  }

  /**
   The loop of `rabbitMqDeadMessageRetrySend`. It has no bound of its own; `attempts` says how
   the rows fare, round by round, and how many rounds are looked at.
   */
  method RetryDead(table: Table, listeners: set<string>, max: int, attempts: seq<RowId -> Attempt>)
    returns (rounds: seq<Round>)
    requires table.Valid()
    modifies table`rows
    ensures table.Valid() && |rounds| <= |attempts|
    ensures RetryRun(old(table.rows), rounds, listeners, max, table.rows)
    ensures |rounds| < |attempts| ==> forall id :: id in table.rows ==> table.rows[id].deleted
    ensures KeepsMessages(old(table.rows), table.rows)
  {
    rounds := [];
    while |rounds| < |attempts|
      invariant table.Valid() && |rounds| <= |attempts|
      invariant RetryRun(old(table.rows), rounds, listeners, max, table.rows)
      decreases |attempts| - |rounds|
    {
      var page := table.ListTrigerMsg();
      if page == [] {
        assert forall id :: id in table.rows && !table.rows[id].deleted ==> id in page;
        break;
      }
      var answer := attempts[|rounds|];
      var r := Round(page, seq(|page|, i requires 0 <= i < |page| => answer(page[i])));
      AppendRound(old(table.rows), rounds, listeners, max, table.rows, r);
      RetryPage(table, r, listeners, max);
      rounds := rounds + [r];
    }
    RetryRunKeepsMessages(old(table.rows), rounds, listeners, max, table.rows);
  }
}

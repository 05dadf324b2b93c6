/**
 Every step of the consumer side moves a message from one place to another, and what is at a
 place came from one (rabbitmq/rabbitmq.go, rabbitmq/listener.go).
 */
module ConsumerPlaces {
  import opened Common
  import opened DeadLetters
  import opened ConsumerProtocol

  /** Row `r` is the next of job `j`'s page. */
  predicate Heads(t: ConsumerProtocol.Table, j: nat, r: RowId) {
    PageOf(t, j) != [] && PageOf(t, j)[0].id == r
  }

  /** Where a step takes what is at `p`. */
  function Next(s: Sys, st: Step, c: Conf, p: Place): Place {
    match p
    case InQueue(k) => if st == Deliver(k) then InFlight(s.next) else p
    case InFlight(t) =>
      if st.ChannelLoss? then InQueue(t)
      else if st.Finish? then
        match Settled(c.autoAck, c.ack, st.outcome, st.flag)
        case Ack(multiple) => if Settles(s.biz, st.t, multiple, t) then Done(t) else p
        case Nack(multiple, requeue) =>
          if !Settles(s.biz, st.t, multiple, t) then p else if requeue then InQueue(t) else InDeadQueue(t)
        case NoReply => p
      else p
    case Done(_) => p
    case InDeadQueue(k) => if st == DeadDeliver(k) then DeadInFlight(s.next) else p
    case DeadInFlight(t) =>
      if st.DeadChannelLoss? || (st.DeadSettle? && st.t == t) then InDeadQueue(t)
      else if st == DeadSave(t, true) then InTable(s.table.next)
      else p
    case InTable(r) =>
      if st.RetryOne? && st.outcome.Succeeds? && st.writes && Heads(s.table, st.j, r)
      then RetriedAway(r) else p
    case RetriedAway(_) => p
  }

  /** With one worker or single replies, a reply settles no other delivery. */
  lemma RepliesSettleThemselves(s: Sys, c: Conf, t: Tag, u: Tag)
    requires Inv(s, c) && Careful(c) && t in s.biz.work && s.biz.work[t].running
    requires Settles(s.biz, t, c.ack.multipart, u)
    ensures u == t
  {
    assert FlightOk(s.biz, c, t) && InOrder(s.biz, c, t, u);
  }

  predicate WithBusiness(p: Place) {
    p.InQueue? || p.InFlight? || p.Done?
  }

  predicate WithDeadSide(p: Place) {
    p.InDeadQueue? || p.DeadInFlight?
  }

  ghost predicate MayTake(s: Sys, st: Step, c: Conf) {
    Inv(s, c) && Careful(c) && Enabled(s, st, c)
  }

  lemma MovesFromFlight(s: Sys, st: Step, c: Conf, m: Msg, u: Tag)
    requires MayTake(s, st, c) && At(s, m, InFlight(u))
    ensures At(Apply(s, st, c), m, Next(s, st, c, InFlight(u)))
  {
    assert KeyOk(s, s.next) && KeyOk(s, u);
    if st.Finish? && Settles(s.biz, st.t, c.ack.multipart, u) {
      RepliesSettleThemselves(s, c, st.t, u);
    }
  }

  lemma MovesFromBusiness(s: Sys, st: Step, c: Conf, m: Msg, p: Place)
    requires MayTake(s, st, c) && At(s, m, p) && WithBusiness(p)
    ensures At(Apply(s, st, c), m, Next(s, st, c, p))
  {
    match p
    case InQueue(k) => assert KeyOk(s, s.next) && KeyOk(s, k);
    case Done(t) => assert KeyOk(s, t);
    case InFlight(u) => MovesFromFlight(s, st, c, m, u);
  }

  lemma MovesFromDeadSide(s: Sys, st: Step, c: Conf, m: Msg, p: Place)
    requires MayTake(s, st, c) && !st.DeadPanic? && At(s, m, p) && WithDeadSide(p)
    ensures At(Apply(s, st, c), m, Next(s, st, c, p))
  {
    assert KeyOk(s, s.next);
    match p
    case InDeadQueue(k) => assert KeyOk(s, k);
    case DeadInFlight(t) => assert DeadFlightOk(s, t) && KeyOk(s, t);
  }

  lemma MovesFromTable(s: Sys, st: Step, c: Conf, m: Msg, p: Place)
    requires MayTake(s, st, c) && At(s, m, p) && !WithBusiness(p) && !WithDeadSide(p)
    ensures At(Apply(s, st, c), m, Next(s, st, c, p))
  {
    assert RowKeyOk(s.table, s.table.next);
    assert RowKeyOk(s.table, p.r);
    assert st.RetryOne? ==> CopyOk(s.table, s.table.pages[st.j][0]);
  }

  /** What is somewhere is afterwards where the step takes it. */
  lemma StepMoves(s: Sys, st: Step, c: Conf, m: Msg, p: Place)
    requires MayTake(s, st, c) && !st.DeadPanic? && At(s, m, p)
    ensures At(Apply(s, st, c), m, Next(s, st, c, p))
  {
    if WithBusiness(p) {
      MovesFromBusiness(s, st, c, m, p);
    } else if WithDeadSide(p) {
      MovesFromDeadSide(s, st, c, m, p);
    } else {
      MovesFromTable(s, st, c, m, p);
    }
  }

  /** Where what is at `p` after a step came from, unless the step routed it. */
  function Prev(s: Sys, st: Step, c: Conf, p: Place): Place {
    match p
    case InQueue(k) => if st.Finish? && k in s.biz.unacked then InFlight(k) else p
    case InFlight(t) => if st.Deliver? && t == s.next then InQueue(st.k) else p
    case Done(t) => if st.Finish? && t in s.biz.unacked then InFlight(t) else p
    case InDeadQueue(k) =>
      if st.Finish? && k in s.biz.unacked then InFlight(k)
      else if st.DeadSettle? && st.t == k && k in s.dead.unacked then DeadInFlight(k)
      else p
    case DeadInFlight(t) => if st.DeadDeliver? && t == s.next then InDeadQueue(st.k) else p
    case InTable(r) => if st.DeadSave? && r == s.table.next then DeadInFlight(st.t) else p
    case RetriedAway(r) =>
      if st.RetryOne? && Heads(s.table, st.j, r) && r in s.table.rows then InTable(r) else p
  }

  /** What the dead listener works on, the broker still waits for. */
  predicate DeadHolds(s: Sys) {
    forall t :: t in s.dead.work ==> t in s.dead.unacked
  }

  ghost predicate MayTakeStaying(s: Sys, st: Step, c: Conf) {
    Inv(s, c) && Enabled(s, st, c) && DeadHolds(s) && Solo(s.table) && !st.ChannelLoss? && !st.DeadChannelLoss?
  }

  lemma StepKeepsDeadHolds(s: Sys, st: Step, c: Conf)
    requires MayTakeStaying(s, st, c)
    ensures DeadHolds(Apply(s, st, c))
  {
  }

  ghost predicate ComesFrom(s: Sys, st: Step, c: Conf, m: Msg, p: Place)
    requires Enabled(s, st, c)
  {
    At(s, m, Prev(s, st, c, p)) && Next(s, st, c, Prev(s, st, c, p)) == p
  }

  lemma FinishComesFrom(s: Sys, st: Step, c: Conf, m: Msg, p: Place)
    requires MayTakeStaying(s, st, c) && At(Apply(s, st, c), m, p) && st.Finish? && WithBusiness(p)
    ensures ComesFrom(s, st, c, m, p)
  {
    assert KeyOk(s, if p.InQueue? then p.k else p.t);
  }

  lemma DeadLetterComesFrom(s: Sys, st: Step, c: Conf, m: Msg, p: Place)
    requires MayTakeStaying(s, st, c) && At(Apply(s, st, c), m, p) && st.Finish? && WithDeadSide(p)
    ensures ComesFrom(s, st, c, m, p)
  {
    assert KeyOk(s, if p.InDeadQueue? then p.k else p.t);
  }

  lemma ComesFromBusiness(s: Sys, st: Step, c: Conf, m: Msg, p: Place)
    requires MayTakeStaying(s, st, c) && At(Apply(s, st, c), m, p) && WithBusiness(p)
    ensures (st == Route(m) && p == InQueue(s.next)) || ComesFrom(s, st, c, m, p)
  {
    if st.Finish? {
      FinishComesFrom(s, st, c, m, p);
    } else {
      assert KeyOk(s, s.next);
    }
  }

  lemma ComesFromDeadSide(s: Sys, st: Step, c: Conf, m: Msg, p: Place)
    requires MayTakeStaying(s, st, c) && At(Apply(s, st, c), m, p) && WithDeadSide(p)
    ensures ComesFrom(s, st, c, m, p)
  {
    if st.Finish? {
      DeadLetterComesFrom(s, st, c, m, p);
    } else {
      assert KeyOk(s, s.next);
      assert st.DeadSettle? ==> KeyOk(s, st.t) && DeadFlightOk(s, st.t);
    }
  }

  lemma ComesFromTable(s: Sys, st: Step, c: Conf, m: Msg, p: Place)
    requires MayTakeStaying(s, st, c) && At(Apply(s, st, c), m, p) && !WithBusiness(p) && !WithDeadSide(p)
    ensures ComesFrom(s, st, c, m, p)
  {
    assert RowKeyOk(s.table, s.table.next) && RowKeyOk(s.table, p.r);
    assert st.RetryOne? ==> CopyOk(s.table, s.table.pages[st.j][0]);
    assert st.DeadSave? ==> DeadFlightOk(s, st.t);
  }

  lemma StepComesFrom(s: Sys, st: Step, c: Conf, m: Msg, p: Place)
    requires MayTakeStaying(s, st, c) && At(Apply(s, st, c), m, p)
    ensures (st == Route(m) && p == InQueue(s.next)) || ComesFrom(s, st, c, m, p)
  {
    if WithBusiness(p) {
      ComesFromBusiness(s, st, c, m, p);
    } else if WithDeadSide(p) {
      ComesFromDeadSide(s, st, c, m, p);
    } else {
      ComesFromTable(s, st, c, m, p);
    }
  }

  // ---------------------------------------------------------------------------------------
  // The steps on the table do what its methods do
  // ---------------------------------------------------------------------------------------

  /** The rows of the table as the protocol sees them; `msgs` says whose message each row holds. */
  function Seen(rows: Rows, msgs: map<RowId, Msg>): map<RowId, TableRow> {
    map r | r in rows && r in msgs :: TableRow(msgs[r], rows[r].retryCount, rows[r].deleted)
  }

  /** One listed row: retried if its queue has a listener, and else skipped. */
  lemma RetryOneIsRetried(t: ConsumerProtocol.Table, c: Conf, j: nat, rows: Rows, msgs: map<RowId, Msg>,
                          id: RowId, row: Row, listeners: set<string>, a: Attempt)
    requires t.rows == Seen(rows, msgs) && id in msgs
    requires PageOf(t, j) != [] && PageOf(t, j)[0] == Listed(id, TableRow(msgs[id], row.retryCount, row.deleted))
    requires !row.deleted
    ensures row.queue in listeners ==>
      DoRetryOne(t, c, j, a.outcome, a.writes).rows == Seen(Retried(rows, id, row, listeners, a, c.max), msgs)
    ensures row.queue !in listeners ==> Seen(Retried(rows, id, row, listeners, a, c.max), msgs) == t.rows
  {
  }

  /** A job goes on to the next row of its page, unless the call panics, which ends its turn; other pages stay. */
  lemma PageGoesOn(s: Sys, c: Conf, j: nat, k: nat, outcome: Outcome, writes: bool)
    requires PageOf(s.table, j) != [] && k != j
    ensures var rest := PageOf(s.table, j)[1..];
      && PageOf(Apply(s, RetrySkip(j), c).table, j) == rest
      && PageOf(Apply(s, RetryOne(j, outcome, writes), c).table, j) == (if outcome.Panics? then [] else rest)
      && PageOf(Apply(s, RetrySkip(j), c).table, k) == PageOf(s.table, k)
      && PageOf(Apply(s, RetryOne(j, outcome, writes), c).table, k) == PageOf(s.table, k)
      && Apply(s, RetrySkip(j), c).calls == s.calls && Apply(s, RetrySkip(j), c).table.rows == s.table.rows
  {
  }

  /** Saving a dead message inserts the row the dead listener's OnDelivery inserts. */
  lemma DeadSaveIsInsert(s: Sys, t: Tag, rows: Rows, msgs: map<RowId, Msg>, row: Row)
    requires t in s.dead.work && s.table.rows == Seen(rows, msgs)
    requires row.retryCount == 0 && !row.deleted
    ensures var id, m := s.table.next, s.dead.work[t].msg;
      id !in msgs ==> DoDeadSave(s, t, true).table.rows == Seen(rows[id := row], msgs[id := m])
  {
  }

  /** A lost channel puts back every delivery the broker still waits for, marked as redelivered, and no more. */
  lemma ChannelLossRedelivers(s: Sys, c: Conf)
    requires Inv(s, c)
    ensures var b := Apply(s, ChannelLoss, c).biz;
      && b.queue.Keys == s.biz.queue.Keys + s.biz.unacked.Keys && b.unacked == map[]
      && (forall t :: t in s.biz.unacked ==> b.queue[t] == Queued(s.biz.unacked[t].msg, true))
      && (forall k :: k in s.biz.queue ==> b.queue[k] == s.biz.queue[k])
      && b.done == s.biz.done && b.work == s.biz.work && b.channel == s.biz.channel + 1
  {
    forall k: nat | k in s.biz.queue ensures k !in s.biz.unacked {
      assert KeyOk(s, k);
    }
  }
}

/**
 The way of a message from a business queue to success, the dead-message table or a retry
 (rabbitmq/rabbitmq.go, rabbitmq/listener.go, rabbitmq/dead_msg.go).

 The broker holds the two queues and the deliveries not yet acknowledged; the client holds the
 deliveries it works on and the table. Every key and delivery tag is drawn from one counter.
 A channel loss puts the broker's unacknowledged deliveries back and leaves the client working
 on deliveries whose replies no longer count.
 */
module ConsumerProtocol {
  import opened Common
  import opened DeadLetters
  import opened Paging

  type Msg = nat
  type Tag = nat

  /** A business listener's parameters and the client's retry limit. */
  datatype Conf = Conf(autoAck: bool, ack: AckParam, workers: nat, max: int)

  datatype Queued = Queued(msg: Msg, redelivered: bool)

  /** A delivery in the client, read from channel number `channel`. */
  datatype Work = Work(item: Queued, channel: nat, running: bool)

  /** A delivery at the dead listener: not yet saved, saved under a row id, or failed to save. */
  datatype DeadPc = Arrived | Saved(row: RowId) | Unsaved

  datatype DeadWork = DeadWork(msg: Msg, pc: DeadPc)

  datatype TableRow = TableRow(msg: Msg, retryCount: nat, deleted: bool)

  datatype Listed = Listed(id: RowId, row: TableRow)

  /** A business queue and its consumer; `done` records what was acknowledged after OnDelivery returned nil. */
  datatype Business = Business(
    channel: nat,
    queue: map<nat, Queued>,
    unacked: map<Tag, Queued>,
    work: map<Tag, Work>,
    done: map<Tag, Msg>)

  /** The dead queue and the dead listener. */
  datatype DeadSide = DeadSide(queue: map<nat, Msg>, unacked: map<Tag, Msg>, work: map<Tag, DeadWork>)

  /**
   The dead-message table and, of each running retry job, what is left of the page it listed;
   `retried` records the rows a retry removed.
   */
  datatype Table = Table(
    next: RowId,
    rows: map<RowId, TableRow>,
    pages: map<nat, seq<Listed>>,
    retried: map<RowId, Msg>)

  function PageOf(t: Table, j: nat): seq<Listed> {
    if j in t.pages then t.pages[j] else []
  }

  /** `routed` and `calls` record what has happened. */
  datatype Sys = Sys(
    next: nat,
    biz: Business,
    dead: DeadSide,
    table: Table,
    routed: set<Msg>,
    calls: map<Msg, nat>)

  datatype Step =
    | Route(m: Msg)
    | Deliver(k: nat)
    | Start(t: Tag)
    | Finish(t: Tag, outcome: Outcome, flag: bool)   // `flag`: Redelivered as OnDelivery leaves it
    | ChannelLoss
    | DeadDeliver(k: nat)
    | DeadSave(t: Tag, saves: bool)
    | DeadSettle(t: Tag)
    | DeadPanic(t: Tag)
    | DeadChannelLoss
    | RetryList(j: nat, ids: seq<RowId>)
    | RetryOne(j: nat, outcome: Outcome, writes: bool)
    | RetrySkip(j: nat)                             // no listener for the row

  const INIT := Sys(
    0, Business(0, map[], map[], map[], map[]), DeadSide(map[], map[], map[]), Table(0, map[], map[], map[]), {}, map[])

  function Calls(s: Sys, m: Msg): nat {
    if m in s.calls then s.calls[m] else 0
  }

  function Called(s: Sys, m: Msg): Sys {
    s.(calls := s.calls[m := Calls(s, m) + 1])
  }

  /** With one worker a channel's deliveries are taken one at a time and in order. */
  predicate MayStart(b: Business, c: Conf, t: Tag)
    requires t in b.work
  {
    c.workers <= 1 ==>
      forall u :: u in b.work && u != t && b.work[u].channel == b.work[t].channel ==> !b.work[u].running && t < u
  }

  predicate ListsLive(t: Table, ids: seq<RowId>) {
    && Distinct(ids)
    && forall i :: 0 <= i < |ids| ==> ids[i] in t.rows && !t.rows[ids[i]].deleted
  }

  predicate Enabled(s: Sys, st: Step, c: Conf) {
    match st
    case Route(m) => m !in s.routed
    case Deliver(k) => k in s.biz.queue
    case Start(t) => t in s.biz.work && !s.biz.work[t].running && MayStart(s.biz, c, t)
    case Finish(t, _, _) => t in s.biz.work && s.biz.work[t].running
    case ChannelLoss => true
    case DeadDeliver(k) => k in s.dead.queue
    case DeadSave(t, _) => t in s.dead.work && s.dead.work[t].pc.Arrived?
    case DeadSettle(t) => t in s.dead.work && !s.dead.work[t].pc.Arrived?
    case DeadPanic(t) => t in s.dead.work && s.dead.work[t].pc.Arrived?
    case DeadChannelLoss => true
    case RetryList(j, ids) => PageOf(s.table, j) == [] && ListsLive(s.table, ids) && |ids| <= PAGE
    case RetryOne(j, _, _) => PageOf(s.table, j) != []
    case RetrySkip(j) => PageOf(s.table, j) != []
  }

  function DoDeliver(b: Business, c: Conf, k: nat, t: Tag): Business
    requires k in b.queue
  {
    var item := b.queue[k];
    b.(queue := b.queue - {k}, work := b.work[t := Work(item, b.channel, false)],
       unacked := if c.autoAck then b.unacked else b.unacked[t := item])
  }

  /** The tags a reply settles: none if the broker no longer waits for this one. */
  predicate Settles(b: Business, t: Tag, multiple: bool, u: Tag) {
    t in b.unacked && u in b.unacked && (u == t || (multiple && u < t))
  }

  function Unsettled(b: Business, t: Tag, multiple: bool): map<Tag, Queued> {
    map u | u in b.unacked && !Settles(b, t, multiple, u) :: b.unacked[u]
  }

  function DoReply(b: Business, t: Tag, reply: Reply): Business {
    match reply
    case NoReply => b
    case Ack(multiple) =>
      b.(unacked := Unsettled(b, t, multiple), done := if t in b.unacked then b.done[t := b.unacked[t].msg] else b.done)
    case Nack(multiple, requeue) =>
      b.(unacked := Unsettled(b, t, multiple),
         queue := if !requeue then b.queue
           else b.queue + map u | u in b.unacked && Settles(b, t, multiple, u) :: b.unacked[u].(redelivered := true))
  }

  /** A rejected delivery that is not requeued goes to the dead queue. */
  function DeadLettered(b: Business, t: Tag, reply: Reply): map<nat, Msg> {
    if reply.Nack? && !reply.requeue then
      map u | u in b.unacked && Settles(b, t, reply.multiple, u) :: b.unacked[u].msg
    else map[]
  }

  function DoFinish(s: Sys, c: Conf, t: Tag, outcome: Outcome, flag: bool): Sys {
    var reply := Settled(c.autoAck, c.ack, outcome, flag);
    var b := DoReply(s.biz, t, reply);
    s.(biz := b.(work := b.work - {t}), dead := s.dead.(queue := s.dead.queue + DeadLettered(s.biz, t, reply)))
  }

  function DoChannelLoss(b: Business): Business {
    b.(channel := b.channel + 1, unacked := map[],
       queue := b.queue + map u | u in b.unacked :: b.unacked[u].(redelivered := true))
  }

  function DoDeadDeliver(d: DeadSide, k: nat, t: Tag): DeadSide
    requires k in d.queue
  {
    var m := d.queue[k];
    d.(queue := d.queue - {k}, unacked := d.unacked[t := m], work := d.work[t := DeadWork(m, Arrived)])
  }

  function DoDeadSave(s: Sys, t: Tag, saves: bool): Sys
    requires t in s.dead.work
  {
    var w := s.dead.work[t];
    var pc := if saves then Saved(s.table.next) else Unsaved;
    s.(dead := s.dead.(work := s.dead.work[t := w.(pc := pc)]),
       table := if !saves then s.table
         else s.table.(next := s.table.next + 1, rows := s.table.rows[s.table.next := TableRow(w.msg, 0, false)]))
  }

  /** A reply for dead delivery `t`; the dead queue has no dead queue of its own. */
  function DoDeadReply(d: DeadSide, t: Tag, reply: Reply): DeadSide {
    var d' := d.(work := d.work - {t}, unacked := d.unacked - {t});
    if reply.Nack? && reply.requeue && t in d.unacked then d'.(queue := d.queue[t := d.unacked[t]]) else d'
  }

  function FailedRow(r: TableRow, max: int): TableRow {
    r.(retryCount := r.retryCount + 1, deleted := r.retryCount + 1 >= max)
  }

  /**
   One row of job `j`, from the copy it listed; a panic ends the job's turn, a failed write
   changes nothing. The call and its write are one step: with the row copied before, nothing
   another job does in between makes a difference to either.
   */
  function DoRetryOne(t: Table, c: Conf, j: nat, outcome: Outcome, writes: bool): Table
    requires PageOf(t, j) != []
  {
    var l := PageOf(t, j)[0];
    var t := t.(pages := t.pages[j := if outcome.Panics? then [] else PageOf(t, j)[1..]]);
    if !writes then t
    else
      match outcome
      case Succeeds => t.(rows := t.rows - {l.id}, retried := t.retried[l.id := l.row.msg])
      case Fails => t.(rows := t.rows[l.id := FailedRow(l.row, c.max)])
      case Panics => t
  }

  function DoList(t: Table, j: nat, ids: seq<RowId>): Table
    requires ListsLive(t, ids)
  {
    t.(pages := t.pages[j := seq(|ids|, i requires 0 <= i < |ids| => Listed(ids[i], t.rows[ids[i]]))])
  }

  function Apply(s: Sys, st: Step, c: Conf): Sys
    requires Enabled(s, st, c)
  {
    match st
    case Route(m) =>
      s.(next := s.next + 1, biz := s.biz.(queue := s.biz.queue[s.next := Queued(m, false)]), routed := s.routed + {m})
    case Deliver(k) => s.(next := s.next + 1, biz := DoDeliver(s.biz, c, k, s.next))
    case Start(t) =>
      Called(s, s.biz.work[t].item.msg).(biz := s.biz.(work := s.biz.work[t := s.biz.work[t].(running := true)]))
    case Finish(t, outcome, flag) => DoFinish(s, c, t, outcome, flag)
    case ChannelLoss => s.(biz := DoChannelLoss(s.biz))
    case DeadDeliver(k) => s.(next := s.next + 1, dead := DoDeadDeliver(s.dead, k, s.next))
    case DeadSave(t, saves) => DoDeadSave(s, t, saves)
    case DeadSettle(t) =>
      s.(dead := DoDeadReply(s.dead, t, DeadReply(if s.dead.work[t].pc.Saved? then Succeeds else Fails)))
    case DeadPanic(t) => s.(dead := DoDeadReply(s.dead, t, DeadReply(Panics)))
    case DeadChannelLoss => s.(dead := s.dead.(unacked := map[], queue := s.dead.queue + s.dead.unacked))
    case RetryList(j, ids) => s.(table := DoList(s.table, j, ids))
    case RetryOne(j, outcome, writes) =>
      Called(s, PageOf(s.table, j)[0].row.msg).(table := DoRetryOne(s.table, c, j, outcome, writes))
    case RetrySkip(j) => s.(table := s.table.(pages := s.table.pages[j := PageOf(s.table, j)[1..]]))
  }

  // ---------------------------------------------------------------------------------------
  // Where a message is
  // ---------------------------------------------------------------------------------------

  datatype Place =
    | InQueue(k: nat)
    | InFlight(t: Tag)
    | Done(t: Tag)              // acknowledged after OnDelivery returned nil
    | InDeadQueue(k: nat)
    | DeadInFlight(t: Tag)      // at the dead listener and not yet saved
    | InTable(r: RowId)         // live or soft-deleted
    | RetriedAway(r: RowId)     // a retry succeeded and removed the row

  predicate At(s: Sys, m: Msg, p: Place) {
    match p
    case InQueue(k) => k in s.biz.queue && s.biz.queue[k].msg == m
    case InFlight(t) => t in s.biz.unacked && s.biz.unacked[t].msg == m
    case Done(t) => t in s.biz.done && s.biz.done[t] == m
    case InDeadQueue(k) => k in s.dead.queue && s.dead.queue[k] == m
    case DeadInFlight(t) =>
      t in s.dead.unacked && s.dead.unacked[t] == m && !(t in s.dead.work && s.dead.work[t].pc.Saved?)
    case InTable(r) => r in s.table.rows && s.table.rows[r].msg == m
    case RetriedAway(r) => r in s.table.retried && s.table.retried[r] == m
  }

  ghost predicate Kept(s: Sys, m: Msg) {
    exists p :: At(s, m, p)
  }

  ghost predicate InOnePlace(s: Sys, m: Msg) {
    Kept(s, m) && forall p, q :: At(s, m, p) && At(s, m, q) ==> p == q
  }

  // ---------------------------------------------------------------------------------------
  // Runs and the rules they may keep to
  // ---------------------------------------------------------------------------------------

  datatype Rules = Rules(
    deadReturns: bool,     // the dead listener never panics
    channelsStay: bool,    // no channel is lost
    writesSucceed: bool,   // database writes succeed
    retriesReturn: bool,   // a retried listener call returns rather than panics
    flagKept: bool,        // listeners leave Redelivered alone
    oneRetrier: bool)      // no retry job lists while another has rows left of its page

  predicate NoOtherPage(t: Table, j: nat) {
    forall k :: k in t.pages && k != j ==> t.pages[k] == []
  }

  predicate Allowed(s: Sys, st: Step, h: Rules) {
    && (h.deadReturns ==> !st.DeadPanic?)
    && (h.channelsStay ==> !st.ChannelLoss? && !st.DeadChannelLoss?)
    && (h.writesSucceed ==> (st.DeadSave? ==> st.saves) && (st.RetryOne? ==> st.writes))
    && (h.retriesReturn && st.RetryOne? ==> !st.outcome.Panics?)
    && (h.oneRetrier && st.RetryList? ==> NoOtherPage(s.table, st.j))
    && (h.flagKept && st.Finish? && st.t in s.biz.work ==> st.flag == s.biz.work[st.t].item.redelivered)
  }

  predicate IsRun(s: Sys, steps: seq<Step>, c: Conf, h: Rules)
    decreases |steps|
  {
    steps == [] ||
    (Enabled(s, steps[0], c) && Allowed(s, steps[0], h) && IsRun(Apply(s, steps[0], c), steps[1..], c, h))
  }

  function After(s: Sys, steps: seq<Step>, c: Conf): Sys
    decreases |steps|
  {
    if steps == [] || !Enabled(s, steps[0], c) then s else After(Apply(s, steps[0], c), steps[1..], c)
  }

  /** Each reply settles its own delivery only, and only once OnDelivery is through with it. */
  predicate Careful(c: Conf) {
    !c.autoAck && (!c.ack.multipart || c.workers <= 1)
  }

  // ---------------------------------------------------------------------------------------
  // The invariant behind both laws
  // ---------------------------------------------------------------------------------------

  /** The broker's containers a number is a key of; the client's maps may keep it longer. */
  function Holders(s: Sys, x: nat): nat {
    One(x in s.biz.queue) + One(x in s.biz.unacked) + One(x in s.biz.done)
    + One(x in s.dead.queue) + One(x in s.dead.unacked)
  }

  /** What holds of one number drawn from the counter, wherever it is used. */
  predicate KeyOk(s: Sys, x: nat) {
    && Holders(s, x) <= 1
    && (Holders(s, x) == 1 || x in s.biz.work || x in s.dead.work ==> x < s.next)
    && (x in s.biz.work ==> s.biz.work[x].channel <= s.biz.channel)
  }

  predicate RowKeyOk(t: Table, r: RowId) {
    && (r in t.rows || r in t.retried ==> r < t.next)
    && (r in t.rows && r in t.retried ==> t.rows[r].msg == t.retried[r])
  }

  /** The broker waits only for deliveries the client has. */
  predicate FlightOk(b: Business, c: Conf, t: Tag) {
    t in b.unacked ==> !c.autoAck && t in b.work && b.work[t].item == b.unacked[t] && b.work[t].channel == b.channel
  }

  /** With one worker, the running delivery is the oldest. */
  predicate InOrder(b: Business, c: Conf, t: Tag, u: Tag) {
    c.workers <= 1 && t in b.unacked && t in b.work && b.work[t].running && u in b.unacked ==> t <= u
  }

  predicate DeadFlightOk(s: Sys, t: Tag) {
    && (t in s.dead.unacked ==> t in s.dead.work && s.dead.unacked[t] == s.dead.work[t].msg)
    && (t in s.dead.work && s.dead.work[t].pc.Saved? ==>
          var w := s.dead.work[t];
          At(s, w.msg, InTable(w.pc.row)) || At(s, w.msg, RetriedAway(w.pc.row)))
  }

  /** A listed copy may be stale, but it is of the message whose row it was. */
  predicate CopyOk(t: Table, l: Listed) {
    && (l.id in t.rows || l.id in t.retried)
    && (l.id in t.rows ==> t.rows[l.id].msg == l.row.msg)
    && (l.id in t.retried ==> t.retried[l.id] == l.row.msg)
  }

  predicate CopiesOk(t: Table) {
    forall j, i :: j in t.pages && 0 <= i < |t.pages[j]| ==> CopyOk(t, t.pages[j][i])
  }

  ghost predicate Inv(s: Sys, c: Conf) {
    && (forall x: nat :: KeyOk(s, x))
    && (forall r: RowId :: RowKeyOk(s.table, r))
    && (forall t: Tag :: FlightOk(s.biz, c, t))
    && (forall t: Tag, u: Tag :: InOrder(s.biz, c, t, u))
    && (forall t: Tag :: DeadFlightOk(s, t))
    && CopiesOk(s.table)
  }

  /** A reply takes no number into a second container. */
  lemma FinishKeepsHolders(s: Sys, st: Step, c: Conf, x: nat)
    requires Inv(s, c) && Enabled(s, st, c) && st.Finish?
    ensures Holders(Apply(s, st, c), x) <= Holders(s, x)
  {
    assert KeyOk(s, x);
  }

  lemma FinishKeepsKey(s: Sys, st: Step, c: Conf, x: nat)
    requires Inv(s, c) && Enabled(s, st, c) && st.Finish?
    ensures KeyOk(Apply(s, st, c), x)
  {
    FinishKeepsHolders(s, st, c, x);
    assert KeyOk(s, x);
  }

  lemma StepKeepsKey(s: Sys, st: Step, c: Conf, x: nat)
    requires Inv(s, c) && Enabled(s, st, c)
    ensures KeyOk(Apply(s, st, c), x)
  {
    if st.Finish? {
      FinishKeepsKey(s, st, c, x);
    } else {
      assert KeyOk(s, x) && KeyOk(s, s.next);
    }
  }

  lemma StepKeepsRowKey(s: Sys, st: Step, c: Conf, r: RowId)
    requires Inv(s, c) && Enabled(s, st, c)
    ensures RowKeyOk(Apply(s, st, c).table, r)
  {
    assert RowKeyOk(s.table, r);
    if st.RetryOne? {
      assert CopyOk(s.table, s.table.pages[st.j][0]) && RowKeyOk(s.table, s.table.pages[st.j][0].id);
    }
  }

  lemma StepKeepsFlight(s: Sys, st: Step, c: Conf, t: Tag)
    requires Inv(s, c) && Enabled(s, st, c)
    ensures FlightOk(Apply(s, st, c).biz, c, t)
  {
    assert FlightOk(s.biz, c, t) && KeyOk(s, s.next);
  }

  lemma StepKeepsOrder(s: Sys, st: Step, c: Conf, t: Tag, u: Tag)
    requires Inv(s, c) && Enabled(s, st, c)
    ensures InOrder(Apply(s, st, c).biz, c, t, u)
  {
    assert InOrder(s.biz, c, t, u) && FlightOk(s.biz, c, t) && FlightOk(s.biz, c, u) && KeyOk(s, t);
  }

  lemma StepKeepsDeadFlight(s: Sys, st: Step, c: Conf, t: Tag)
    requires Inv(s, c) && Enabled(s, st, c)
    ensures DeadFlightOk(Apply(s, st, c), t)
  {
    assert DeadFlightOk(s, t) && KeyOk(s, s.next) && RowKeyOk(s.table, s.table.next);
    if t in s.dead.work && s.dead.work[t].pc.Saved? {
      assert RowKeyOk(s.table, s.dead.work[t].pc.row);
    }
  }

  lemma StepKeepsCopy(s: Sys, st: Step, c: Conf, l: Listed)
    requires Inv(s, c) && Enabled(s, st, c) && CopyOk(s.table, l)
    ensures CopyOk(Apply(s, st, c).table, l)
  {
    assert RowKeyOk(s.table, l.id);
    if st.RetryOne? {
      assert CopyOk(s.table, s.table.pages[st.j][0]);
    }
  }

  /** What is on a page afterwards was on it before, or has just been listed. */
  lemma PageComesFrom(s: Sys, st: Step, c: Conf, j: nat, l: Listed)
    requires Enabled(s, st, c)
    requires l in PageOf(Apply(s, st, c).table, j)
    ensures l in PageOf(s.table, j) || (st.RetryList? && l.id in s.table.rows && s.table.rows[l.id] == l.row)
  {
  }

  lemma StepKeepsCopies(s: Sys, st: Step, c: Conf)
    requires Inv(s, c) && Enabled(s, st, c)
    ensures CopiesOk(Apply(s, st, c).table)
  {
    var t' := Apply(s, st, c).table;
    forall j, i | j in t'.pages && 0 <= i < |t'.pages[j]| ensures CopyOk(t', t'.pages[j][i]) {
      var l := t'.pages[j][i];
      assert l in PageOf(t', j);
      PageComesFrom(s, st, c, j, l);
      assert l in PageOf(s.table, j) || RowKeyOk(s.table, l.id);
      StepKeepsCopy(s, st, c, l);
    }
  }

  lemma StepKeepsInv(s: Sys, st: Step, c: Conf)
    requires Inv(s, c) && Enabled(s, st, c)
    ensures Inv(Apply(s, st, c), c)
  {
    forall x: nat ensures KeyOk(Apply(s, st, c), x) {
      StepKeepsKey(s, st, c, x);
    }
    forall r: RowId ensures RowKeyOk(Apply(s, st, c).table, r) {
      StepKeepsRowKey(s, st, c, r);
    }
    forall t: Tag ensures FlightOk(Apply(s, st, c).biz, c, t) && DeadFlightOk(Apply(s, st, c), t) {
      StepKeepsFlight(s, st, c, t);
      StepKeepsDeadFlight(s, st, c, t);
    }
    forall t: Tag, u: Tag ensures InOrder(Apply(s, st, c).biz, c, t, u) {
      StepKeepsOrder(s, st, c, t, u);
    }
    StepKeepsCopies(s, st, c);
  }

  // ---------------------------------------------------------------------------------------
  // One retry job at a time
  // ---------------------------------------------------------------------------------------

  predicate Fresh(t: Table, l: Listed) {
    l.id in t.rows && t.rows[l.id] == l.row && !l.row.deleted
  }

  /** At most one page has rows left, its copies are not stale, and a removed row does not come back. */
  ghost predicate Solo(t: Table) {
    && (forall j, k :: j in t.pages && k in t.pages && t.pages[j] != [] && t.pages[k] != [] ==> j == k)
    && (forall j, i :: j in t.pages && 0 <= i < |t.pages[j]| ==> Fresh(t, t.pages[j][i]))
    && (forall j, i, k :: j in t.pages && 0 <= i < k < |t.pages[j]| ==> t.pages[j][i].id != t.pages[j][k].id)
    && (forall r :: r in t.rows ==> r !in t.retried)
  }

  lemma ListKeepsSolo(t: Table, j: nat, ids: seq<RowId>)
    requires Solo(t) && ListsLive(t, ids) && NoOtherPage(t, j)
    ensures Solo(DoList(t, j, ids))
  {
  }

  lemma RetryKeepsSolo(t: Table, c: Conf, j: nat, outcome: Outcome, writes: bool)
    requires Solo(t) && PageOf(t, j) != []
    ensures Solo(DoRetryOne(t, c, j, outcome, writes))
  {
    var t' := DoRetryOne(t, c, j, outcome, writes);
    assert Fresh(t, t.pages[j][0]);
    forall k, i | k in t'.pages && 0 <= i < |t'.pages[k]| ensures Fresh(t', t'.pages[k][i]) {
      assert k == j && t'.pages[k][i] == t.pages[j][i + 1];
      assert Fresh(t, t.pages[j][i + 1]);
    }
  }

  lemma SaveKeepsSolo(t: Table, row: TableRow)
    requires Solo(t) && RowKeyOk(t, t.next)
    ensures Solo(t.(next := t.next + 1, rows := t.rows[t.next := row]))
  {
    var t' := t.(next := t.next + 1, rows := t.rows[t.next := row]);
    forall k, i | k in t'.pages && 0 <= i < |t'.pages[k]| ensures Fresh(t', t'.pages[k][i]) {
      assert Fresh(t, t.pages[k][i]);
    }
  }

  lemma StepKeepsSolo(s: Sys, st: Step, c: Conf, h: Rules)
    requires Inv(s, c) && Solo(s.table) && Enabled(s, st, c) && Allowed(s, st, h) && h.oneRetrier
    ensures Solo(Apply(s, st, c).table)
  {
    match st
    case RetryList(j, ids) => ListKeepsSolo(s.table, j, ids);
    case RetryOne(j, outcome, writes) => RetryKeepsSolo(s.table, c, j, outcome, writes);
    case RetrySkip(j) => RetryKeepsSolo(s.table, c, j, Fails, false);
    case DeadSave(t, saves) =>
      assert RowKeyOk(s.table, s.table.next);
      SaveKeepsSolo(s.table, TableRow(s.dead.work[t].msg, 0, false));
    case _ =>
  }
}

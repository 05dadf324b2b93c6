/**
 How often a message's business listener is called over its whole life, and exactly the settings
 and rules under which that is bounded (rabbitmq/rabbitmq.go, rabbitmq/listener.go).
 */
module ConsumerAttempts {
  import opened Common
  import opened DeadLetters
  import opened ConsumerProtocol
  import opened ConsumerPlaces
  import opened ConsumerLaws

  // ---------------------------------------------------------------------------------------
  // The client holds a message once
  // ---------------------------------------------------------------------------------------

  predicate WorkAt(s: Sys, m: Msg, t: Tag) {
    t in s.biz.work && s.biz.work[t].item.msg == m
  }

  predicate PendingAt(s: Sys, m: Msg, t: Tag) {
    WorkAt(s, m, t) && !s.biz.work[t].running
  }

  /** A message is at most once in the business queue or in the client's hands, and not before it is routed. */
  ghost predicate HandedOnce(s: Sys) {
    && (forall m, t, u :: WorkAt(s, m, t) && WorkAt(s, m, u) ==> t == u)
    && (forall m, j, k :: At(s, m, InQueue(j)) && At(s, m, InQueue(k)) ==> j == k)
    && (forall m, t, k :: WorkAt(s, m, t) ==> !At(s, m, InQueue(k)))
    && (forall m, t :: WorkAt(s, m, t) ==> m in s.routed)
    && (forall m, k :: At(s, m, InQueue(k)) ==> m in s.routed)
  }

  predicate BizHolds(s: Sys) {
    forall t :: t in s.biz.work ==> t in s.biz.unacked
  }

  lemma FinishSettlesItself(s: Sys, c: Conf, t: Tag, outcome: Outcome, flag: bool)
    requires MayTake(s, Finish(t, outcome, flag), c) && BizHolds(s)
    ensures Apply(s, Finish(t, outcome, flag), c).biz.unacked == s.biz.unacked - {t}
  {
    forall u | Settles(s.biz, t, c.ack.multipart, u) ensures u == t {
      RepliesSettleThemselves(s, c, t, u);
    }
  }

  lemma StepKeepsBizHolds(s: Sys, st: Step, c: Conf)
    requires MayTake(s, st, c) && BizHolds(s) && !st.ChannelLoss?
    ensures BizHolds(Apply(s, st, c))
  {
    if st.Finish? {
      FinishSettlesItself(s, c, st.t, st.outcome, st.flag);
    }
  }

  /** What the broker still waits for is nowhere else. */
  lemma HoldingIsHandingOnce(s: Sys, c: Conf)
    requires Inv(s, c) && BizHolds(s) && NowhereTwice(s)
    ensures HandedOnce(s)
  {
    forall m, t | WorkAt(s, m, t) ensures At(s, m, InFlight(t)) {
      assert FlightOk(s.biz, c, t);
    }
    assert forall m, j, k :: At(s, m, InQueue(j)) && At(s, m, InQueue(k)) ==> InQueue(j) == InQueue(k);
    assert forall m, t, u :: WorkAt(s, m, t) && WorkAt(s, m, u) ==> InFlight(t) == InFlight(u);
  }

  predicate NeverRequeues(c: Conf) {
    c.autoAck || !c.ack.requeue
  }

  ghost predicate MayTakeUnqueued(s: Sys, st: Step, c: Conf) {
    && Inv(s, c) && Enabled(s, st, c) && HandedOnce(s)
    && NeverRequeues(c) && (st.ChannelLoss? ==> c.autoAck)
  }

  /** Nothing comes back to the queue. */
  lemma QueueComesFrom(s: Sys, st: Step, c: Conf, m: Msg, k: nat)
    requires MayTakeUnqueued(s, st, c) && At(Apply(s, st, c), m, InQueue(k))
    ensures (st == Route(m) && k == s.next) || (At(s, m, InQueue(k)) && st != Deliver(k))
  {
    assert FlightOk(s.biz, c, k);
  }

  lemma WorkComesFrom(s: Sys, st: Step, c: Conf, m: Msg, t: Tag)
    requires MayTakeUnqueued(s, st, c) && WorkAt(Apply(s, st, c), m, t)
    ensures WorkAt(s, m, t) || (st.Deliver? && t == s.next && At(s, m, InQueue(st.k)))
  {
  }

  lemma StepKeepsHandedOnce(s: Sys, st: Step, c: Conf)
    requires MayTakeUnqueued(s, st, c)
    ensures HandedOnce(Apply(s, st, c))
  {
    var s' := Apply(s, st, c);
    forall m, j, k | At(s', m, InQueue(j)) && At(s', m, InQueue(k)) ensures j == k {
      QueueComesFrom(s, st, c, m, j);
      QueueComesFrom(s, st, c, m, k);
    }
    forall m, t | WorkAt(s', m, t) ensures m in s'.routed {
      WorkComesFrom(s, st, c, m, t);
    }
    forall m, t, k | WorkAt(s', m, t) ensures !At(s', m, InQueue(k)) {
      WorkComesFrom(s, st, c, m, t);
      if At(s', m, InQueue(k)) {
        QueueComesFrom(s, st, c, m, k);
      }
    }
    forall m, t, u | WorkAt(s', m, t) && WorkAt(s', m, u) ensures t == u {
      WorkComesFrom(s, st, c, m, t);
      WorkComesFrom(s, st, c, m, u);
    }
    forall m, k | At(s', m, InQueue(k)) ensures m in s'.routed {
      QueueComesFrom(s, st, c, m, k);
    }
  }

  // ---------------------------------------------------------------------------------------
  // Calls made and calls to come
  // ---------------------------------------------------------------------------------------

  /** Deliveries of one message to the business listener: a second only by requeueing. */
  function Deliveries(c: Conf): nat {
    if c.ack.requeue then 2 else 1
  }

  function Bound(c: Conf): nat {
    Deliveries(c) + Attempts(c.max)
  }

  /** The calls made for a message, and the one to come if delivery `t` of it awaits its turn. */
  function Owed(s: Sys, m: Msg, t: Tag): nat {
    Calls(s, m) + One(PendingAt(s, m, t))
  }

  ghost predicate Within(s: Sys, m: Msg, limit: int) {
    forall t: Tag :: Owed(s, m, t) <= limit
  }

  /** The step delivers the message or retries it. */
  predicate HandsOut(s: Sys, st: Step, m: Msg) {
    || (st.Deliver? && At(s, m, InQueue(st.k)))
    || (st.RetryOne? && PageOf(s.table, st.j) != [] && PageOf(s.table, st.j)[0].row.msg == m)
  }

  /** Only a delivery or a retry adds to what is owed: starting on a delivery was owed before. */
  lemma StepKeepsWithin(s: Sys, st: Step, c: Conf, m: Msg, limit: int)
    requires KeyOk(s, s.next) && Enabled(s, st, c) && HandedOnce(s) && Within(s, m, limit)
    ensures Within(Apply(s, st, c), m, limit + One(HandsOut(s, st, m)))
  {
    forall t: Tag ensures Owed(Apply(s, st, c), m, t) <= limit + One(HandsOut(s, st, m)) {
      assert Owed(s, m, t) <= limit;
      if st.Start? && WorkAt(s, m, st.t) {
        assert Owed(s, m, st.t) <= limit;
        assert WorkAt(s, m, t) ==> t == st.t;
      }
    }
  }

  // ---------------------------------------------------------------------------------------
  // What a message's place says about its calls
  // ---------------------------------------------------------------------------------------

  /** How often a queued delivery's message has been handed out before. */
  function Before(item: Queued): nat {
    if item.redelivered then 1 else 0
  }

  function Limit(s: Sys, c: Conf, m: Msg, p: Place): nat
    requires At(s, m, p)
  {
    match p
    case InQueue(k) => Before(s.biz.queue[k])
    case InFlight(t) => Before(s.biz.unacked[t]) + 1
    case Done(_) => Deliveries(c)
    case InDeadQueue(_) => Deliveries(c)
    case DeadInFlight(_) => Deliveries(c)
    case InTable(r) => Deliveries(c) + s.table.rows[r].retryCount
    case RetriedAway(_) => Bound(c)
  }

  predicate Shape(s: Sys, c: Conf, m: Msg, p: Place)
    requires At(s, m, p)
  {
    match p
    case InQueue(k) => s.biz.queue[k].redelivered ==> c.ack.requeue
    case InFlight(t) => s.biz.unacked[t].redelivered ==> c.ack.requeue
    case InTable(r) =>
      var row := s.table.rows[r];
      row.retryCount <= Attempts(c.max) && (!row.deleted ==> row.retryCount < Attempts(c.max))
    case _ => true
  }

  ghost predicate Placed(s: Sys, c: Conf, m: Msg, p: Place) {
    At(s, m, p) && Shape(s, c, m, p)
  }

  lemma LimitsAreBounded(s: Sys, c: Conf, m: Msg, p: Place)
    requires Placed(s, c, m, p)
    ensures Limit(s, c, m, p) <= Bound(c)
  {
  }

  /** The settings and rules under which attempts are bounded, with manual replies. */
  predicate Bounding(c: Conf, h: Rules) {
    && !c.autoAck && h.channelsStay && h.writesSucceed && h.retriesReturn && h.oneRetrier
    && (c.ack.requeue ==> h.flagKept && Careful(c))
  }

  ghost predicate MayCount(s: Sys, st: Step, c: Conf, h: Rules) {
    && MayTakeStaying(s, st, c) && NowhereTwice(s) && HandedOnce(s)
    && Allowed(s, st, h) && Bounding(c, h)
  }

  /** The message moves from `p`, and what may have been owed there may be owed where it is next. */
  ghost predicate Follows(s: Sys, st: Step, c: Conf, h: Rules, m: Msg, p: Place) {
    MayCount(s, st, c, h) && Placed(s, c, m, p) && At(Apply(s, st, c), m, Next(s, st, c, p))
  }

  ghost predicate LimitGrows(s: Sys, st: Step, c: Conf, m: Msg, p: Place)
    requires Enabled(s, st, c)
  {
    var s', q := Apply(s, st, c), Next(s, st, c, p);
    && At(s, m, p) && Placed(s', c, m, q)
    && Limit(s', c, m, q) >= Limit(s, c, m, p) + One(HandsOut(s, st, m))
  }

  /** A message is retried from its row: the copy is not stale. */
  lemma RetriedFrom(s: Sys, st: Step, c: Conf, h: Rules, m: Msg)
    requires MayCount(s, st, c, h) && st.RetryOne? && HandsOut(s, st, m)
    ensures At(s, m, InTable(s.table.pages[st.j][0].id))
    ensures s.table.rows[s.table.pages[st.j][0].id] == s.table.pages[st.j][0].row
    ensures !s.table.pages[st.j][0].row.deleted
  {
    assert Fresh(s.table, s.table.pages[st.j][0]);
  }

  lemma LimitGrowsInQueue(s: Sys, st: Step, c: Conf, h: Rules, m: Msg, k: nat)
    requires Follows(s, st, c, h, m, InQueue(k))
    ensures LimitGrows(s, st, c, m, InQueue(k))
  {
    assert KeyOk(s, s.next) && KeyOk(s, k);
    if st.RetryOne? && HandsOut(s, st, m) {
      RetriedFrom(s, st, c, h, m);
    }
  }

  lemma FinishGrowsLimit(s: Sys, st: Step, c: Conf, h: Rules, m: Msg, t: Tag)
    requires Follows(s, st, c, h, m, InFlight(t)) && st.Finish?
    ensures LimitGrows(s, st, c, m, InFlight(t))
  {
    assert KeyOk(s, t) && FlightOk(s.biz, c, t);
    if c.ack.requeue && Settles(s.biz, st.t, c.ack.multipart, t) {
      RepliesSettleThemselves(s, c, st.t, t);
    }
  }

  lemma LimitGrowsInFlight(s: Sys, st: Step, c: Conf, h: Rules, m: Msg, t: Tag)
    requires Follows(s, st, c, h, m, InFlight(t))
    ensures LimitGrows(s, st, c, m, InFlight(t))
  {
    if st.Finish? {
      FinishGrowsLimit(s, st, c, h, m, t);
    } else {
      assert KeyOk(s, s.next) && KeyOk(s, t) && FlightOk(s.biz, c, t);
      if st.RetryOne? && HandsOut(s, st, m) {
        RetriedFrom(s, st, c, h, m);
      }
    }
  }

  lemma LimitGrowsInTable(s: Sys, st: Step, c: Conf, h: Rules, m: Msg, r: RowId)
    requires Follows(s, st, c, h, m, InTable(r))
    ensures LimitGrows(s, st, c, m, InTable(r))
  {
    if st.RetryOne? && HandsOut(s, st, m) {
      RetriedFrom(s, st, c, h, m);
    }
    assert RowKeyOk(s.table, r);
  }

  lemma LimitGrowsBeyond(s: Sys, st: Step, c: Conf, h: Rules, m: Msg, p: Place)
    requires Follows(s, st, c, h, m, p) && !p.InQueue? && !p.InFlight? && !p.InTable?
    ensures LimitGrows(s, st, c, m, p)
  {
    if st.RetryOne? && HandsOut(s, st, m) {
      RetriedFrom(s, st, c, h, m);
    }
  }

  lemma StepGrowsLimit(s: Sys, st: Step, c: Conf, h: Rules, m: Msg, p: Place)
    requires Follows(s, st, c, h, m, p)
    ensures LimitGrows(s, st, c, m, p)
  {
    match p
    case InQueue(k) => LimitGrowsInQueue(s, st, c, h, m, k);
    case InFlight(t) => LimitGrowsInFlight(s, st, c, h, m, t);
    case InTable(r) => LimitGrowsInTable(s, st, c, h, m, r);
    case _ => LimitGrowsBeyond(s, st, c, h, m, p);
  }

  // ---------------------------------------------------------------------------------------
  // The bound over whole runs
  // ---------------------------------------------------------------------------------------

  ghost predicate PlaceOk(s: Sys, c: Conf, m: Msg, p: Place) {
    At(s, m, p) ==> Placed(s, c, m, p) && Within(s, m, Limit(s, c, m, p))
  }

  ghost predicate Counted(s: Sys, c: Conf) {
    && (forall m, p :: PlaceOk(s, c, m, p))
    && (forall m :: m !in s.routed ==> Within(s, m, 0))
    && (forall m :: Within(s, m, Bound(c)))
  }

  lemma WithinMore(s: Sys, m: Msg, less: int, more: int)
    requires Within(s, m, less) && less <= more
    ensures Within(s, m, more)
  {
    forall t: Tag ensures Owed(s, m, t) <= more {
      assert Owed(s, m, t) <= less;
    }
  }

  lemma StepKeepsPlaceOk(s: Sys, st: Step, c: Conf, h: Rules, m: Msg, p: Place)
    requires MayCount(s, st, c, h) && Counted(s, c)
    ensures PlaceOk(Apply(s, st, c), c, m, p)
  {
    var s' := Apply(s, st, c);
    if At(s', m, p) {
      assert KeyOk(s, s.next);
      StepComesFrom(s, st, c, m, p);
      if st == Route(m) && p == InQueue(s.next) {
        StepKeepsWithin(s, st, c, m, 0);
      } else {
        var q := Prev(s, st, c, p);
        assert PlaceOk(s, c, m, q);
        StepGrowsLimit(s, st, c, h, m, q);
        StepKeepsWithin(s, st, c, m, Limit(s, c, m, q));
        WithinMore(s', m, Limit(s, c, m, q) + One(HandsOut(s, st, m)), Limit(s', c, m, p));
      }
    }
  }

  lemma StepKeepsBound(s: Sys, st: Step, c: Conf, h: Rules, m: Msg)
    requires MayCount(s, st, c, h) && Counted(s, c)
    ensures Within(Apply(s, st, c), m, Bound(c))
    ensures m !in Apply(s, st, c).routed ==> Within(Apply(s, st, c), m, 0)
  {
    var s' := Apply(s, st, c);
    assert KeyOk(s, s.next);
    StepKeepsWithin(s, st, c, m, Bound(c));
    if m !in s'.routed {
      StepKeepsWithin(s, st, c, m, 0);
    }
    if HandsOut(s, st, m) {
      assert st.RetryOne? ==> Fresh(s.table, s.table.pages[st.j][0]);
      var q := if st.Deliver? then InQueue(st.k) else InTable(s.table.pages[st.j][0].id);
      assert At(s, m, q);
      var p := Next(s, st, c, q);
      assert At(s', m, p);
      StepKeepsPlaceOk(s, st, c, h, m, p);
      LimitsAreBounded(s', c, m, p);
      WithinMore(s', m, Limit(s', c, m, p), Bound(c));
    }
  }

  lemma StepKeepsCounted(s: Sys, st: Step, c: Conf, h: Rules)
    requires MayCount(s, st, c, h) && Counted(s, c)
    ensures Counted(Apply(s, st, c), c)
  {
    forall m, p ensures PlaceOk(Apply(s, st, c), c, m, p) {
      StepKeepsPlaceOk(s, st, c, h, m, p);
    }
    forall m
      ensures Within(Apply(s, st, c), m, Bound(c))
      ensures m !in Apply(s, st, c).routed ==> Within(Apply(s, st, c), m, 0)
    {
      StepKeepsBound(s, st, c, h, m);
    }
  }

  ghost predicate Steady(s: Sys, c: Conf) {
    && Inv(s, c) && NowhereTwice(s) && DeadHolds(s) && HandedOnce(s) && Solo(s.table)
    && (c.ack.requeue ==> BizHolds(s))
  }

  lemma StepKeepsSteady(s: Sys, st: Step, c: Conf, h: Rules)
    requires MayCount(s, st, c, h) && Steady(s, c)
    ensures Steady(Apply(s, st, c), c)
  {
    StepKeepsNowhereTwice(s, st, c);
    StepKeepsDeadHolds(s, st, c);
    StepKeepsSolo(s, st, c, h);
    StepKeepsInv(s, st, c);
    if c.ack.requeue {
      StepKeepsBizHolds(s, st, c);
      HoldingIsHandingOnce(Apply(s, st, c), c);
    } else {
      StepKeepsHandedOnce(s, st, c);
    }
  }

  lemma {:induction false} RunKeepsCounted(s: Sys, steps: seq<Step>, c: Conf, h: Rules)
    requires Steady(s, c) && Counted(s, c) && IsRun(s, steps, c, h) && Bounding(c, h)
    ensures Counted(After(s, steps, c), c)
    decreases |steps|
  {
    if steps != [] {
      StepKeepsCounted(s, steps[0], c, h);
      StepKeepsSteady(s, steps[0], c, h);
      RunKeepsCounted(Apply(s, steps[0], c), steps[1..], c, h);
    }
  }

  // ---------------------------------------------------------------------------------------
  // Automatic acknowledgement: one call at most, whatever happens
  // ---------------------------------------------------------------------------------------

  predicate NoPages(t: ConsumerProtocol.Table) {
    forall j :: j in t.pages ==> t.pages[j] == []
  }

  ghost predicate OneCall(s: Sys) {
    && s.dead == INIT.dead && s.table.rows == map[] && NoPages(s.table)
    && (forall m :: Within(s, m, 1))
    && (forall m, k :: At(s, m, InQueue(k)) ==> Within(s, m, 0))
    && (forall m :: m !in s.routed ==> Within(s, m, 0))
  }

  lemma FirstListed(t: ConsumerProtocol.Table, ids: seq<RowId>)
    requires ListsLive(t, ids)
    ensures ids == [] || ids[0] in t.rows
  {
  }

  lemma AutoAckRowsStayEmpty(s: Sys, st: Step, c: Conf)
    requires c.autoAck && Inv(s, c) && Enabled(s, st, c) && OneCall(s)
    ensures var s' := Apply(s, st, c);
      s'.dead == s.dead && s'.table.rows == s.table.rows && NoPages(s'.table)
  {
    forall t ensures t !in s.biz.unacked {
      assert FlightOk(s.biz, c, t);
    }
    assert s.biz.unacked == map[];
    if st.RetryList? {
      FirstListed(s.table, st.ids);
    }
  }

  lemma AutoAckKeepsOneCall(s: Sys, st: Step, c: Conf)
    requires c.autoAck && Inv(s, c) && Enabled(s, st, c) && HandedOnce(s) && OneCall(s)
    ensures OneCall(Apply(s, st, c))
  {
    var s' := Apply(s, st, c);
    AutoAckRowsStayEmpty(s, st, c);
    assert KeyOk(s, s.next);
    forall m ensures Within(s', m, 1) && (m !in s'.routed ==> Within(s', m, 0)) {
      if m !in s.routed || HandsOut(s, st, m) {
        StepKeepsWithin(s, st, c, m, 0);
        WithinMore(s', m, One(HandsOut(s, st, m)), 1);
      } else {
        StepKeepsWithin(s, st, c, m, 1);
      }
    }
    forall m, k | At(s', m, InQueue(k)) ensures Within(s', m, 0) {
      QueueComesFrom(s, st, c, m, k);
      StepKeepsWithin(s, st, c, m, 0);
    }
  }

  lemma {:induction false} RunKeepsOneCall(s: Sys, steps: seq<Step>, c: Conf, h: Rules)
    requires c.autoAck && Inv(s, c) && HandedOnce(s) && OneCall(s) && IsRun(s, steps, c, h)
    ensures OneCall(After(s, steps, c))
    decreases |steps|
  {
    if steps != [] {
      AutoAckKeepsOneCall(s, steps[0], c);
      StepKeepsHandedOnce(s, steps[0], c);
      StepKeepsInv(s, steps[0], c);
      RunKeepsOneCall(Apply(s, steps[0], c), steps[1..], c, h);
    }
  }

  // ---------------------------------------------------------------------------------------
  // Runs without a bound
  // ---------------------------------------------------------------------------------------

  /** Redelivered after a channel loss, as often as channels are lost. */
  lemma {:induction false} ChannelLossRepeats(c: Conf, h: Rules, n: nat) returns (s: Sys, k: nat)
    requires !c.autoAck && !h.channelsStay
    ensures Reaches(s, c, h) && Calls(s, 0) > n
    ensures k in s.biz.queue && s.biz.queue[k].msg == 0 && k < s.next
    ensures forall t :: t in s.biz.work ==> s.biz.work[t].channel < s.biz.channel && t < s.next
    ensures s.biz.unacked == map[]
    decreases n
  {
    if n == 0 {
      s := FirstCall(c, h);
      s := Go(s, ChannelLoss, c, h);
      k := 1;
    } else {
      s, k := ChannelLossRepeats(c, h, n - 1);
      var t := s.next;
      s := HandOut(s, k, c, h);
      s := Go(s, ChannelLoss, c, h);
      k := t;
    }
  }

  /** A listener that clears Redelivered is requeued for as long as it fails. */
  lemma {:induction false} ClearedFlagRepeats(c: Conf, h: Rules, n: nat) returns (s: Sys, t: Tag)
    requires !c.autoAck && c.ack.requeue && !h.flagKept
    ensures Reaches(s, c, h) && Calls(s, 0) > n
    ensures t in s.biz.work && s.biz.work[t].running && s.biz.work[t].item.msg == 0
    ensures s.biz.work.Keys == {t} && s.biz.unacked.Keys == {t} && s.biz.unacked[t].msg == 0 && t < s.next
    decreases n
  {
    if n == 0 {
      s := FirstCall(c, h);
      t := 1;
    } else {
      s, t := ClearedFlagRepeats(c, h, n - 1);
      s := Go(s, Finish(t, Fails, false), c, h);
      assert s.biz.unacked == map[] && s.biz.work == map[];
      var u := s.next;
      s := HandOut(s, t, c, h);
      t := u;
    }
  }

  /** A retried call that panics, or whose failure is not written, is made again in the next round. */
  lemma {:induction false} UnchargedRetryRepeats(c: Conf, h: Rules, n: nat) returns (s: Sys)
    requires !c.autoAck && (!h.writesSucceed || !h.retriesReturn)
    ensures Reaches(s, c, h) && Calls(s, 0) > n
    ensures s.table == ConsumerProtocol.Table(1, map[0 := TableRow(0, 0, false)], s.table.pages, map[])
    ensures NoPages(s.table)
    decreases n
  {
    if n == 0 {
      s := ToTheTable(c, h);
    } else {
      s := UnchargedRetryRepeats(c, h, n - 1);
      s := Go(s, RetryList(0, [0]), c, h);
      s := Go(s, if h.writesSucceed then RetryOne(0, Panics, true) else RetryOne(0, Fails, false), c, h);
    }
  }

  /** Any number of jobs list the one row before any of them retries it. */
  lemma {:induction false} ListedByAll(c: Conf, h: Rules, n: nat) returns (s: Sys)
    requires !c.autoAck && !h.oneRetrier
    ensures Reaches(s, c, h)
    ensures s.table.rows == map[0 := TableRow(0, 0, false)]
    ensures forall j: nat :: PageOf(s.table, j) == if j < n then [Listed(0, TableRow(0, 0, false))] else []
    decreases n
  {
    if n == 0 {
      s := ToTheTable(c, h);
    } else {
      s := ListedByAll(c, h, n - 1);
      var before := s.table;
      s := Go(s, RetryList(n - 1, [0]), c, h);
      assert PageOf(s.table, n - 1) == [Listed(0, TableRow(0, 0, false))];
      assert forall j: nat :: j != n - 1 ==> PageOf(s.table, j) == PageOf(before, j);
    }
  }

  /** Each then calls the listener and charges the same first attempt to its stale copy. */
  lemma {:induction false} StaleCopyRepeats(c: Conf, h: Rules, n: nat, k: nat) returns (s: Sys)
    requires !c.autoAck && !h.oneRetrier && k <= n
    ensures Reaches(s, c, h) && Calls(s, 0) >= k
    ensures forall j: nat :: PageOf(s.table, j) == if k <= j < n then [Listed(0, TableRow(0, 0, false))] else []
    decreases k
  {
    if k == 0 {
      s := ListedByAll(c, h, n);
    } else {
      s := StaleCopyRepeats(c, h, n, k - 1);
      var before := s.table;
      s := Go(s, RetryOne(k - 1, Fails, true), c, h);
      assert PageOf(s.table, k - 1) == [];
      assert forall j: nat :: j != k - 1 ==> PageOf(s.table, j) == PageOf(before, j);
    }
  }

  /** A newer delivery that fails puts the older one back into the queue as well, redelivered or not. */
  lemma FailedNewcomer(s: Sys, m: Msg, t: Tag, c: Conf, h: Rules) returns (s': Sys)
    requires !c.autoAck && c.ack.requeue && c.ack.multipart && c.workers > 1
    requires Reaches(s, c, h) && t in s.biz.unacked && t < s.next && m !in s.routed
    ensures Reaches(s', c, h) && s'.routed == s.routed + {m}
    ensures t in s'.biz.queue && s'.biz.queue[t].msg == s.biz.unacked[t].msg
    ensures forall x :: x != m ==> Calls(s', x) == Calls(s, x)
    ensures t < s'.next
  {
    s' := Go(s, Route(m), c, h);
    s' := HandOut(s', s.next, c, h);
    s' := Go(s', Finish(s.next + 1, Fails, false), c, h);
  }

  /** Several workers, Multipart and Requeue: each failed newcomer has the older delivery handed out again. */
  lemma {:induction false} MultipartRequeueRepeats(c: Conf, h: Rules, n: nat) returns (s: Sys, t: Tag)
    requires !c.autoAck && c.ack.requeue && c.ack.multipart && c.workers > 1
    ensures Reaches(s, c, h) && Calls(s, 0) > n
    ensures t in s.biz.unacked && s.biz.unacked[t].msg == 0 && t < s.next
    ensures forall m :: m in s.routed ==> m <= n
    decreases n
  {
    if n == 0 {
      s := FirstCall(c, h);
      t := 1;
    } else {
      s, t := MultipartRequeueRepeats(c, h, n - 1);
      s := FailedNewcomer(s, n, t, c, h);
      var again := s.next;
      s := HandOut(s, t, c, h);
      t := again;
    }
  }

  ghost predicate AlwaysBounded(c: Conf, h: Rules) {
    forall steps, m :: IsRun(INIT, steps, c, h) ==>
      Calls(After(INIT, steps, c), m) <= (if c.ack.requeue then 2 else 1) + (if c.max < 1 then 1 else c.max)
  }

  /** A delivery of message 0 that fails and is not requeued arrives in the table. */
  lemma FailsForGood(s: Sys, item: Queued, t: Tag, c: Conf, h: Rules) returns (s': Sys)
    requires Reaches(s, c, h) && !c.autoAck && (c.ack.requeue ==> item.redelivered) && item.msg == 0
    requires s.biz.unacked == map[t := item] && t in s.biz.work && s.biz.work[t].item == item && s.biz.work[t].running
    requires s.dead == INIT.dead && s.table == INIT.table
    ensures Reaches(s', c, h) && s'.calls == s.calls
    ensures s'.table == ConsumerProtocol.Table(1, map[0 := TableRow(0, 0, false)], map[], map[])
  {
    s' := Go(s, Finish(t, Fails, item.redelivered), c, h);
    assert s'.dead.queue == map[t := 0];
    s' := Go(s', DeadDeliver(t), c, h);
    s' := Go(s', DeadSave(s.next, true), c, h);
  }

  /** Message 0 has failed once, is requeued and delivered again. */
  lemma SecondDelivery(c: Conf, h: Rules) returns (s: Sys)
    requires !c.autoAck && c.ack.requeue
    ensures Reaches(s, c, h) && Calls(s, 0) == 2 && s.dead == INIT.dead && s.table == INIT.table
    ensures s.biz.unacked == map[2 := Queued(0, true)] && s.biz.work == map[2 := Work(Queued(0, true), 0, true)]
  {
    s := FirstCall(c, h);
    s := Go(s, Finish(1, Fails, false), c, h);
    assert s.biz.unacked == map[] && s.biz.work == map[];
    s := HandOut(s, 1, c, h);
  }

  /** Message 0 fails on every delivery it gets and is in the table. */
  lemma FailedEveryDelivery(c: Conf, h: Rules) returns (s: Sys)
    requires !c.autoAck
    ensures Reaches(s, c, h) && Calls(s, 0) == if c.ack.requeue then 2 else 1
    ensures s.table == ConsumerProtocol.Table(1, map[0 := TableRow(0, 0, false)], map[], map[])
  {
    if c.ack.requeue {
      s := SecondDelivery(c, h);
      s := FailsForGood(s, Queued(0, true), 2, c, h);
    } else {
      s := FirstCall(c, h);
      s := FailsForGood(s, Queued(0, false), 1, c, h);
    }
  }

  lemma ListTheRow(s: Sys, c: Conf, h: Rules, row: TableRow) returns (s': Sys)
    requires Reaches(s, c, h) && !row.deleted && NoPages(s.table) && s.table.rows == map[0 := row]
    ensures Reaches(s', c, h) && s'.calls == s.calls
    ensures s'.table == s.table.(pages := s.table.pages[0 := [Listed(0, row)]])
  {
    s' := Go(s, RetryList(0, [0]), c, h);
    assert PageOf(s'.table, 0) == [Listed(0, row)];
  }

  lemma FailedRetry(s: Sys, c: Conf, h: Rules, row: TableRow) returns (s': Sys)
    requires Reaches(s, c, h) && !row.deleted && row.msg == 0 && NoPages(s.table)
    requires s.table == ConsumerProtocol.Table(1, map[0 := row], s.table.pages, map[])
    ensures Reaches(s', c, h) && Calls(s', 0) == Calls(s, 0) + 1 && NoPages(s'.table)
    ensures s'.table == ConsumerProtocol.Table(1, map[0 := FailedRow(row, c.max)], s'.table.pages, map[])
  {
    var mid := ListTheRow(s, c, h, row);
    ChargeTheRow(mid.table, c, row);
    s' := Go(mid, RetryOne(0, Fails, true), c, h);
  }

  lemma ChargeTheRow(t: ConsumerProtocol.Table, c: Conf, row: TableRow)
    requires PageOf(t, 0) == [Listed(0, row)] && t.rows == map[0 := row]
    requires forall j :: j in t.pages && j != 0 ==> t.pages[j] == []
    ensures var t' := DoRetryOne(t, c, 0, Fails, true);
      && t'.rows == map[0 := FailedRow(row, c.max)] && NoPages(t') && t'.next == t.next && t'.retried == t.retried
  {
  }

  /** And then on the first `k` of its retries. */
  lemma {:induction false} FailedRetries(c: Conf, h: Rules, k: nat) returns (s: Sys)
    requires !c.autoAck && k <= Attempts(c.max)
    ensures Reaches(s, c, h) && Calls(s, 0) == (if c.ack.requeue then 2 else 1) + k
    ensures s.table ==
      ConsumerProtocol.Table(1, map[0 := TableRow(0, k, k > 0 && k >= c.max)], s.table.pages, map[])
    ensures NoPages(s.table)
    decreases k
  {
    if k == 0 {
      s := FailedEveryDelivery(c, h);
    } else {
      s := FailedRetries(c, h, k - 1);
      s := FailedRetry(s, c, h, s.table.rows[0]);
    }
  }

  /** The bound is reached: with every rule kept, a message whose listener always fails is called exactly that often. */
  lemma BoundIsReached(c: Conf, h: Rules) returns (s: Sys)
    requires !c.autoAck
    ensures Reaches(s, c, h) && Calls(s, 0) == (if c.ack.requeue then 2 else 1) + (if c.max < 1 then 1 else c.max)
  {
    s := FailedRetries(c, h, Attempts(c.max));
  }

  lemma StartsSteady(c: Conf)
    ensures Steady(INIT, c) && Counted(INIT, c) && OneCall(INIT)
  {
  }

  lemma BoundedUnderTheRules(c: Conf, h: Rules)
    requires c.autoAck || Bounding(c, h)
    ensures AlwaysBounded(c, h)
  {
    StartsSteady(c);
    forall steps, m | IsRun(INIT, steps, c, h) ensures Calls(After(INIT, steps, c), m) <= Bound(c) {
      if c.autoAck {
        RunKeepsOneCall(INIT, steps, c, h);
        assert Within(After(INIT, steps, c), m, 1);
      } else {
        RunKeepsCounted(INIT, steps, c, h);
        assert Within(After(INIT, steps, c), m, Bound(c));
      }
      assert Owed(After(INIT, steps, c), m, 0) <= Bound(c);
    }
  }

  lemma UnboundedOtherwise(c: Conf, h: Rules) returns (s: Sys)
    requires !c.autoAck && !Bounding(c, h)
    ensures Reaches(s, c, h) && Calls(s, 0) > Bound(c)
  {
    if !h.channelsStay {
      var k;
      s, k := ChannelLossRepeats(c, h, Bound(c));
    } else if !h.writesSucceed || !h.retriesReturn {
      s := UnchargedRetryRepeats(c, h, Bound(c));
    } else if !h.oneRetrier {
      s := StaleCopyRepeats(c, h, Bound(c) + 1, Bound(c) + 1);
    } else if !h.flagKept {
      var t;
      s, t := ClearedFlagRepeats(c, h, Bound(c));
    } else {
      var t;
      s, t := MultipartRequeueRepeats(c, h, Bound(c));
    }
  }

  /**
   Bounded attempts: in every run a message's listener is called at most twice with requeueing,
   else once, plus max(1, MaxRetryAttempts) times; if and only if replies are automatic, or no
   channel is lost, writes succeed, retried calls return, no two retry jobs run at once and, with
   requeueing, listeners leave Redelivered alone and a reply settles one delivery.
   */
  lemma BoundedExactlyUnderTheRules(c: Conf, h: Rules)
    ensures AlwaysBounded(c, h) <==>
      || c.autoAck
      || (&& h.channelsStay && h.writesSucceed && h.retriesReturn && h.oneRetrier
          && (c.ack.requeue ==> h.flagKept && (!c.ack.multipart || c.workers <= 1)))
  {
    if c.autoAck || Bounding(c, h) {
      BoundedUnderTheRules(c, h);
    } else {
      var s := UnboundedOtherwise(c, h);
      var steps :| IsRun(INIT, steps, c, h) && After(INIT, steps, c) == s;
      assert Calls(After(INIT, steps, c), 0) > Bound(c);
    }
  }
}

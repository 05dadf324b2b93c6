/**
 The transactional outbox as steps over the table, the goroutines that publish and wait for
 confirmation, the broker and the clock (rabbitmq/rabbitmq.go, rabbitmq/transactional_msg.go,
 orm/gorm.go). Commit, publish, ack, nack, return, channel closure, retry and purge interleave
 freely.
 */
module OutboxProtocol {
  import opened Common
  import opened OutboxTable
  import opened Paging
  import opened OutboxSend

  /**
   One `confirmOne` goroutine and its channel: which of its two listeners are registered, what
   the broker has put into them (`heard`: a return), whether the broker returned the message at
   all, and whether the goroutine has returned and marked its row.
   */
  datatype Waiter = Waiter(
    id: Id,
    hearsConfirms: bool,
    hearsReturns: bool,
    confirm: Option<bool>,
    bounced: bool,
    heard: bool,
    closed: bool,
    done: bool,
    marked: bool)

  /** What happens to one waiter: it registers, the broker answers, its channel closes, its `select` takes a case. */
  datatype Event =
    | ListenConfirms
    | ListenReturns
    | BrokerConfirm(ack: bool)
    | BrokerReturn
    | ChannelClose
    | TakeConfirm(deletes: bool)
    | TakeReturn

  /** A row as the retry job listed it. */
  datatype Listed = Listed(id: Id, row: Row)

  /**
   `pages` has what is left of each retry job's page. `saved`, `committed` and `acked` record what
   has happened, by the clock and the database and the broker: when each id was saved, which ids
   are committed, and which were acked.
   */
  datatype Sys = Sys(
    now: nat,
    rows: Rows,
    txs: map<nat, Rows>,
    publishers: map<nat, set<Id>>,
    waiters: seq<Waiter>,
    pages: map<nat, seq<Listed>>,
    saved: map<Id, nat>,
    committed: set<Id>,
    acked: set<Id>)

  datatype Step =
    | Tick(to: nat)
    | TxBegin(t: nat)
    | TxSave(t: nat, id: Id, body: string)
    | TxCommit(t: nat, succeeds: bool)
    | TxRollback(t: nat)
    | Publish(t: nat, id: Id, sent: bool)
    | Wait(w: nat, e: Event)
    | RetryList(j: nat, ids: seq<Id>)
    | RetryOne(j: nat, sent: bool)
    | Purge

  const INIT := Sys(0, map[], map[], map[], [], map[], map[], {}, {})

  function Rest(pages: map<nat, seq<Listed>>, j: nat): seq<Listed> {
    if j in pages then pages[j] else []
  }

  predicate MayHappen(v: Waiter, e: Event) {
    match e
    case ListenConfirms => !v.hearsConfirms && !v.done
    case ListenReturns => v.hearsConfirms && !v.hearsReturns && !v.done
    case BrokerConfirm(_) => !v.closed && v.confirm.None?
    case BrokerReturn => !v.closed && !v.bounced
    case ChannelClose => true
    case TakeConfirm(_) => v.hearsReturns && !v.done && v.confirm.Some?
    case TakeReturn => v.hearsReturns && !v.done && (v.heard || v.closed)
  }

  /** A confirmation or a return that comes before its listener is registered is dropped. */
  function React(v: Waiter, e: Event): Waiter {
    match e
    case ListenConfirms => v.(hearsConfirms := true)
    case ListenReturns => v.(hearsReturns := true)
    case BrokerConfirm(ack) => if v.hearsConfirms then v.(confirm := Some(ack)) else v
    case BrokerReturn => v.(bounced := true, heard := v.hearsReturns)
    case ChannelClose => v.(closed := true)
    case TakeConfirm(deletes) =>
      v.(done := true, closed := true, marked := v.confirm.Some? && v.confirm.value && deletes)
    case TakeReturn => v.(done := true, closed := true)
  }

  predicate Enabled(s: Sys, st: Step) {
    match st
    case Tick(to) => s.now <= to
    case TxBegin(t) => t !in s.txs && t !in s.publishers
    case TxSave(t, id, _) => t in s.txs && id !in s.saved
    case TxCommit(t, _) => t in s.txs
    case TxRollback(t) => t in s.txs
    case Publish(t, id, _) => t in s.publishers && id in s.publishers[t]
    case Wait(w, e) => w < |s.waiters| && MayHappen(s.waiters[w], e)
    case RetryList(j, ids) => Rest(s.pages, j) == [] && IsListing(s.rows, s.now, ids)
    case RetryOne(j, _) => Rest(s.pages, j) != []
    case Purge => true
  }

  function Waiting(id: Id): Waiter {
    Waiter(id, false, false, None, false, false, false, false, false)
  }

  function DoCommit(s: Sys, t: nat, succeeds: bool): Sys
    requires t in s.txs
  {
    var mine := s.txs[t];
    // The error of a failed commit is discarded, so the publisher starts either way.
    var s := s.(txs := s.txs - {t}, publishers := s.publishers[t := mine.Keys]);
    if succeeds then
      s.(rows := s.rows + mine, committed := s.committed + mine.Keys)
    else s
  }

  /** The broker's ack is recorded whether or not anybody listens; a row is deleted by the case that took an ack. */
  function DoWait(s: Sys, w: nat, e: Event): Sys
    requires w < |s.waiters| && MayHappen(s.waiters[w], e)
  {
    var v := s.waiters[w];
    s.(waiters := s.waiters[w := React(v, e)],
       acked := if e == BrokerConfirm(true) then s.acked + {v.id} else s.acked,
       rows := if e.TakeConfirm? && v.confirm.value && e.deletes then SoftDeleted(s.rows, v.id) else s.rows)
  }

  function DoRetryOne(s: Sys, j: nat, sent: bool): Sys
    requires Rest(s.pages, j) != []
  {
    var l := Rest(s.pages, j)[0];
    var w := [Waiting(l.id)];
    var delayed := if sent && l.row.delayedTime > 0 then w else [];
    s.(pages := s.pages[j := Rest(s.pages, j)[1..]], waiters := if sent then s.waiters + delayed + w else s.waiters)
  }

  function Apply(s: Sys, st: Step): Sys
    requires Enabled(s, st)
  {
    match st
    case Tick(to) => s.(now := to)
    case TxBegin(t) => s.(txs := s.txs[t := map[]])
    case TxSave(t, id, body) =>
      s.(txs := s.txs[t := s.txs[t][id := RowFor(body, s.now)]], saved := s.saved[id := s.now])
    case TxCommit(t, succeeds) => DoCommit(s, t, succeeds)
    case TxRollback(t) => s.(txs := s.txs - {t})
    case Publish(t, id, sent) =>
      s.(publishers := s.publishers[t := s.publishers[t] - {id}],
         waiters := if sent then s.waiters + [Waiting(id)] else s.waiters)
    case Wait(w, e) => DoWait(s, w, e)
    case RetryList(j, ids) =>
      s.(pages := s.pages[j := seq(|ids|, i requires 0 <= i < |ids| => Listed(ids[i], s.rows[ids[i]]))])
    case RetryOne(j, sent) => DoRetryOne(s, j, sent)
    case Purge => s.(rows := Purged(s.rows, s.now - KEEP))
  }

  // ---------------------------------------------------------------------------------------
  // Nothing committed is lost before its time
  // ---------------------------------------------------------------------------------------

  /** What a run may be required to keep to. */
  datatype Rules = Rules(
    commitsSucceed: bool,    // the database fails no commit
    purgeFindsMarked: bool,  // the purge finds every row older than seven days marked as delivered
    routable: bool,          // the broker returns no message
    returnsFirst: bool,      // a select with a return pending takes it
    listensFirst: bool)      // a return comes only once the waiter listens for it

  const ALL := Rules(true, true, true, true, true)

  predicate OldRowsMarked(s: Sys) {
    forall id :: id in s.rows && s.rows[id].createdAt + KEEP < s.now ==> s.rows[id].deleted
  }

  predicate MayTell(v: Waiter, e: Event, h: Rules) {
    && (h.routable ==> !e.BrokerReturn?)
    && (h.returnsFirst && e.TakeConfirm? ==> !v.heard)
    && (h.listensFirst && e.BrokerReturn? ==> v.hearsReturns)
  }

  predicate Allowed(s: Sys, st: Step, h: Rules) {
    && (h.commitsSucceed && st.TxCommit? ==> st.succeeds)
    && (h.purgeFindsMarked && st.Purge? ==> OldRowsMarked(s))
    && (st.Wait? && st.w < |s.waiters| ==> MayTell(s.waiters[st.w], st.e, h))
  }

  predicate IsRun(s: Sys, steps: seq<Step>, h: Rules)
    decreases |steps|
  {
    steps == [] ||
    (Enabled(s, steps[0]) && Allowed(s, steps[0], h) && IsRun(Apply(s, steps[0]), steps[1..], h))
  }

  function After(s: Sys, steps: seq<Step>): Sys
    decreases |steps|
  {
    if steps == [] || !Enabled(s, steps[0]) then s else After(Apply(s, steps[0]), steps[1..])
  }

  /** More than seven days have passed since the message was saved. */
  predicate Aged(s: Sys, id: Id) {
    id in s.saved && s.saved[id] + 604_800 < s.now
  }

  /** The message of a committed transaction is accounted for. */
  predicate Safe(s: Sys, id: Id) {
    IsLive(s.rows, id) || id in s.acked || Aged(s, id)
  }

  predicate RowOk(s: Sys, id: Id) {
    && id in s.saved
    && (if id in s.rows then s.rows[id].createdAt == s.saved[id] && (s.rows[id].deleted ==> id in s.acked)
        else Aged(s, id))
  }

  predicate TxOk(s: Sys, t: nat)
    requires t in s.txs
  {
    forall id :: id in s.txs[t] ==>
      && id in s.saved && id !in s.committed && s.txs[t][id].createdAt == s.saved[id]
      && !s.txs[t][id].deleted && s.txs[t][id].delayedTime == 0
  }

  predicate TxsApart(s: Sys) {
    forall t, u :: t in s.txs && u in s.txs && t != u ==> s.txs[t].Keys !! s.txs[u].Keys
  }

  ghost predicate Inv(s: Sys) {
    && (forall id :: id in s.committed ==> RowOk(s, id))
    && (forall t :: t in s.txs ==> TxOk(s, t))
    && TxsApart(s)
    && (forall id :: id in s.rows ==> id in s.committed && s.rows[id].delayedTime == 0)
    && (forall i :: 0 <= i < |s.waiters| && s.waiters[i].confirm == Some(true) ==> s.waiters[i].id in s.acked)
    && (forall j: nat, l :: l in Rest(s.pages, j) ==> l.row.delayedTime == 0)
  }

  lemma CommitKeepsInv(s: Sys, t: nat, succeeds: bool)
    requires Inv(s) && t in s.txs
    ensures Inv(DoCommit(s, t, succeeds))
  {
    var s' := DoCommit(s, t, succeeds);
    assert TxOk(s, t);
    forall u | u in s'.txs ensures TxOk(s', u) {
      assert TxOk(s, u) && s.txs[t].Keys !! s.txs[u].Keys;
    }
  }

  lemma SaveKeepsInv(s: Sys, t: nat, id: Id, body: string)
    requires Inv(s) && Enabled(s, TxSave(t, id, body))
    ensures Inv(Apply(s, TxSave(t, id, body)))
  {
    var s' := Apply(s, TxSave(t, id, body));
    forall u | u in s'.txs ensures TxOk(s', u) {
      assert TxOk(s, u);
    }
    assert forall u :: u in s.txs ==> TxOk(s, u) && id !in s.txs[u];
  }

  lemma BeginKeepsInv(s: Sys, t: nat)
    requires Inv(s) && t !in s.txs
    ensures Inv(s.(txs := s.txs[t := map[]]))
  {
    assert forall u :: u in s.txs ==> TxOk(s, u);
  }

  lemma RollbackKeepsInv(s: Sys, t: nat)
    requires Inv(s)
    ensures Inv(s.(txs := s.txs - {t}))
  {
    assert forall u :: u in s.txs ==> TxOk(s, u);
  }

  predicate TouchesTxs(st: Step) {
    st.TxBegin? || st.TxSave? || st.TxCommit? || st.TxRollback?
  }

  lemma DeliveryKeepsRow(s: Sys, st: Step, id: Id)
    requires Inv(s) && Enabled(s, st) && !TouchesTxs(st)
    ensures id in s.committed ==> RowOk(Apply(s, st), id)
    ensures id in Apply(s, st).rows ==> id in s.committed && Apply(s, st).rows[id].delayedTime == 0
  {
    assert id in s.committed ==> RowOk(s, id);
  }

  /** A waiter has an ack only from the broker. */
  lemma AckComesFromBroker(v: Waiter, e: Event)
    requires MayHappen(v, e) && React(v, e).confirm == Some(true)
    ensures v.confirm == Some(true) || e == BrokerConfirm(true)
  {
  }

  lemma DeliveryKeepsWaiter(s: Sys, st: Step, i: nat)
    requires Inv(s) && Enabled(s, st) && !TouchesTxs(st) && i < |Apply(s, st).waiters|
    requires Apply(s, st).waiters[i].confirm == Some(true)
    ensures Apply(s, st).waiters[i].id in Apply(s, st).acked
  {
    if st.Wait? {
      var v := s.waiters[i];
      assert Apply(s, st).waiters[i] == if st.w == i then React(v, st.e) else v;
      if st.w == i {
        AckComesFromBroker(v, st.e);
      }
    } else {
      assert i < |s.waiters| && Apply(s, st).waiters[i] == s.waiters[i];
    }
  }

  /** What is on a page afterwards was on it before, or has just been listed. */
  lemma PageComesFrom(s: Sys, st: Step, j: nat, l: Listed)
    requires Enabled(s, st) && l in Rest(Apply(s, st).pages, j)
    ensures l in Rest(s.pages, j) || (st.RetryList? && l.id in s.rows && s.rows[l.id] == l.row)
  {
  }

  /** Publishing, confirmations, retry and purge see no open transaction. */
  lemma DeliveryFrame(s: Sys, st: Step)
    requires Enabled(s, st) && !TouchesTxs(st)
    ensures var s' := Apply(s, st); s'.txs == s.txs && s'.committed == s.committed && s'.saved == s.saved
  {
  }

  /** The invariant of a state with the same transactions, from its parts. */
  lemma Assemble(s: Sys, s': Sys)
    requires Inv(s) && s'.txs == s.txs && s'.committed == s.committed && s'.saved == s.saved
    requires forall id :: id in s.committed ==> RowOk(s', id)
    requires forall id :: id in s'.rows ==> id in s.committed && s'.rows[id].delayedTime == 0
    requires forall i :: 0 <= i < |s'.waiters| && s'.waiters[i].confirm == Some(true) ==> s'.waiters[i].id in s'.acked
    requires forall j: nat, l :: l in Rest(s'.pages, j) ==> l.row.delayedTime == 0
    ensures Inv(s')
  {
    forall t | t in s'.txs ensures TxOk(s', t) {
      assert TxOk(s, t);
    }
  }

  lemma DeliveryKeepsInv(s: Sys, st: Step)
    requires Inv(s) && Enabled(s, st) && !TouchesTxs(st)
    ensures Inv(Apply(s, st))
  {
    DeliveryFrame(s, st);
    forall id ensures id in s.committed ==> RowOk(Apply(s, st), id)
      ensures id in Apply(s, st).rows ==> id in s.committed && Apply(s, st).rows[id].delayedTime == 0
    {
      DeliveryKeepsRow(s, st, id);
    }
    forall i | 0 <= i < |Apply(s, st).waiters| && Apply(s, st).waiters[i].confirm == Some(true)
      ensures Apply(s, st).waiters[i].id in Apply(s, st).acked
    {
      DeliveryKeepsWaiter(s, st, i);
    }
    forall j: nat, l | l in Rest(Apply(s, st).pages, j) ensures l.row.delayedTime == 0 {
      PageComesFrom(s, st, j, l);
    }
    Assemble(s, Apply(s, st));
  }

  lemma StepKeepsInv(s: Sys, st: Step)
    requires Inv(s) && Enabled(s, st)
    ensures Inv(Apply(s, st))
  {
    match st
    case TxCommit(t, succeeds) => CommitKeepsInv(s, t, succeeds);
    case TxSave(t, id, body) => SaveKeepsInv(s, t, id, body);
    case TxBegin(t) => BeginKeepsInv(s, t);
    case TxRollback(t) => RollbackKeepsInv(s, t);
    case _ => DeliveryKeepsInv(s, st);
  }

  lemma {:induction false} RunKeepsInv(s: Sys, steps: seq<Step>, h: Rules)
    requires Inv(s) && IsRun(s, steps, h)
    ensures Inv(After(s, steps))
    decreases |steps|
  {
    if steps != [] {
      StepKeepsInv(s, steps[0]);
      RunKeepsInv(Apply(s, steps[0]), steps[1..], h);
    }
  }

  /**
   No loss in the outbox: at every point of every run, each message of a committed transaction
   has a live row, or the broker has really acked its id, or its row is more than seven days
   old. A row is marked deleted only after a real ack, and disappears only by its age.
   */
  lemma NothingCommittedIsLost(steps: seq<Step>, h: Rules, id: Id)
    requires IsRun(INIT, steps, h) && id in After(INIT, steps).committed
    ensures var s := After(INIT, steps);
      && Safe(s, id)
      && (id in s.rows && s.rows[id].deleted ==> id in s.acked)
      && (id !in s.rows ==> Aged(s, id))
  {
    RunKeepsInv(INIT, steps, h);
    assert RowOk(After(INIT, steps), id);
  }

  /** No row ever holds a delay, so a retry publishes each row once and at once, whatever delay was asked for. */
  lemma RetriesAreNeverDelayed(steps: seq<Step>, h: Rules, c: Codec)
    requires IsRun(INIT, steps, h)
    ensures var s := After(INIT, steps);
      forall j: nat, l :: l in Rest(s.pages, j) ==>
        RetryPublishes(c, l.row) == NotifyPublish(c, RetryPayload(c, l.row.body))
  {
    RunKeepsInv(INIT, steps, h);
  }

  // ---------------------------------------------------------------------------------------
  // Published means committed, if commits succeed
  // ---------------------------------------------------------------------------------------

  predicate PublishedCommitted(s: Sys) {
    && (forall i :: 0 <= i < |s.waiters| ==> s.waiters[i].id in s.committed)
    && s.acked <= s.committed
  }

  ghost predicate SendersCommitted(s: Sys) {
    && (forall t :: t in s.publishers ==> s.publishers[t] <= s.committed)
    && (forall j: nat, l :: l in Rest(s.pages, j) ==> l.id in s.committed)
  }

  lemma StepKeepsPublished(s: Sys, st: Step, h: Rules)
    requires Inv(s) && PublishedCommitted(s) && SendersCommitted(s)
    requires Enabled(s, st) && Allowed(s, st, h) && h.commitsSucceed
    ensures PublishedCommitted(Apply(s, st))
  {
    assert s.committed <= Apply(s, st).committed;
    if st.Publish? {
      assert s.publishers[st.t] <= s.committed;
    }
  }

  lemma StepKeepsSenders(s: Sys, st: Step, h: Rules)
    requires Inv(s) && SendersCommitted(s)
    requires Enabled(s, st) && Allowed(s, st, h) && h.commitsSucceed
    ensures SendersCommitted(Apply(s, st))
  {
    assert s.committed <= Apply(s, st).committed;
    forall j: nat, l | l in Rest(Apply(s, st).pages, j) ensures l.id in Apply(s, st).committed {
      PageComesFrom(s, st, j, l);
    }
  }

  lemma {:induction false} RunKeepsPublished(s: Sys, steps: seq<Step>, h: Rules)
    requires Inv(s) && PublishedCommitted(s) && SendersCommitted(s)
    requires IsRun(s, steps, h) && h.commitsSucceed
    ensures PublishedCommitted(After(s, steps))
    decreases |steps|
  {
    if steps != [] {
      StepKeepsInv(s, steps[0]);
      StepKeepsPublished(s, steps[0], h);
      StepKeepsSenders(s, steps[0], h);
      RunKeepsPublished(Apply(s, steps[0]), steps[1..], h);
    }
  }

  // ---------------------------------------------------------------------------------------
  // Runs that show what the code does not promise
  // ---------------------------------------------------------------------------------------

  ghost predicate Reaches(s: Sys, h: Rules) {
    exists steps :: IsRun(INIT, steps, h) && After(INIT, steps) == s
  }

  lemma {:induction false} Extend(s: Sys, steps: seq<Step>, st: Step, h: Rules)
    requires IsRun(s, steps, h) && Enabled(After(s, steps), st) && Allowed(After(s, steps), st, h)
    ensures IsRun(s, steps + [st], h)
    ensures After(s, steps + [st]) == Apply(After(s, steps), st)
    decreases |steps|
  {
    if steps == [] {
      assert IsRun(Apply(s, st), [], h);
    } else {
      assert (steps + [st])[1..] == steps[1..] + [st];
      Extend(Apply(s, steps[0]), steps[1..], st, h);
    }
  }

  lemma Go(s: Sys, st: Step, h: Rules) returns (s': Sys)
    requires Reaches(s, h) && Enabled(s, st) && Allowed(s, st, h)
    ensures s' == Apply(s, st) && Reaches(s', h)
  {
    var steps :| IsRun(INIT, steps, h) && After(INIT, steps) == s;
    Extend(INIT, steps, st, h);
    s' := Apply(s, st);
  }

  /** A transaction with one message, before its commit. */
  lemma SaveOne(h: Rules) returns (s: Sys)
    ensures Reaches(s, h)
    ensures s == INIT.(txs := map[0 := map["a" := RowFor("m", 0)]], saved := map["a" := 0])
  {
    assert IsRun(INIT, [], h) && After(INIT, []) == INIT;
    s := Go(INIT, TxBegin(0), h);
    s := Go(s, TxSave(0, "a", "m"), h);
  }

  /** The same transaction, committed or not, and its publish. */
  lemma SendOne(h: Rules, commits: bool) returns (s: Sys)
    requires h.commitsSucceed ==> commits
    ensures Reaches(s, h)
    ensures s == INIT.(rows := if commits then map["a" := RowFor("m", 0)] else map[], publishers := map[0 := {}],
                       waiters := [Waiting("a")], saved := map["a" := 0], committed := if commits then {"a"} else {})
  {
    s := SaveOne(h);
    s := Go(s, TxCommit(0, commits), h);
    assert s.publishers[0] == {"a"} && s.txs == map[];
    s := Go(s, Publish(0, "a", true), h);
    assert s.publishers[0] == {};
  }

  /** The purge takes undelivered rows too. */
  lemma PurgeTakesUndelivered(h: Rules) returns (s: Sys)
    requires !h.purgeFindsMarked
    ensures Reaches(s, h)
    ensures "a" in s.committed && "a" !in s.rows && s.acked == {}
  {
    s := SendOne(h, true);
    s := Go(s, Tick(KEEP + 1), h);
    s := Go(s, Purge, h);
  }

  lemma DeliveredRow(h: Rules) returns (s: Sys)
    ensures Reaches(s, h) && s.committed == {"a"} && s.acked == {"a"} && s.now == 0
    ensures s.rows == map["a" := RowFor("m", 0).(deleted := true)]
  {
    s := SendOne(h, true);
    s := Go(s, Wait(0, ListenConfirms), h);
    s := Go(s, Wait(0, ListenReturns), h);
    s := Go(s, Wait(0, BrokerConfirm(true)), h);
    s := Go(s, Wait(0, TakeConfirm(true)), h);
  }

  /** A delivered row is purged once it is old enough, under every rule. */
  lemma MarkedRowIsPurged(h: Rules) returns (s: Sys)
    ensures Reaches(s, h) && s.committed == {"a"} && s.acked == {"a"} && s.rows == map[]
  {
    s := DeliveredRow(h);
    s := Go(s, Tick(604_801), h);
    s := Go(s, Purge, h);
  }

  /** An unroutable message is returned and then acked; the select may take the ack and mark the row. */
  lemma ReturnedMessageCountsAsSent(h: Rules) returns (s: Sys)
    requires !h.routable && !h.returnsFirst
    ensures Reaches(s, h) && !MarkedWereRouted(s)
  {
    s := SendOne(h, true);
    s := Go(s, Wait(0, ListenConfirms), h);
    s := Go(s, Wait(0, ListenReturns), h);
    s := Go(s, Wait(0, BrokerReturn), h);
    s := Go(s, Wait(0, BrokerConfirm(true)), h);
    s := Go(s, Wait(0, TakeConfirm(true)), h);
    assert s.waiters[0].marked && s.waiters[0].bounced;
  }

  /** A return between the two registrations is dropped, so not even a select that prefers returns sees it. */
  lemma DroppedReturnCountsAsSent(h: Rules) returns (s: Sys)
    requires !h.routable && !h.listensFirst
    ensures Reaches(s, h) && !MarkedWereRouted(s)
  {
    s := SendOne(h, true);
    s := Go(s, Wait(0, ListenConfirms), h);
    s := Go(s, Wait(0, BrokerReturn), h);
    s := Go(s, Wait(0, BrokerConfirm(true)), h);
    s := Go(s, Wait(0, ListenReturns), h);
    s := Go(s, Wait(0, TakeConfirm(true)), h);
    assert s.waiters[0].marked && s.waiters[0].bounced;
  }

  ghost predicate AlwaysPublishedCommitted(h: Rules) {
    forall steps :: IsRun(INIT, steps, h) ==> PublishedCommitted(After(INIT, steps))
  }

  /** Only committed messages are published, in every run, if and only if commits never fail. */
  lemma PublishedCommittedExactlyIfCommitsSucceed(h: Rules)
    ensures AlwaysPublishedCommitted(h) <==> h.commitsSucceed
  {
    if h.commitsSucceed {
      forall steps | IsRun(INIT, steps, h) ensures PublishedCommitted(After(INIT, steps)) {
        RunKeepsPublished(INIT, steps, h);
      }
    } else {
      var s := SendOne(h, false);
      assert s.waiters[0].id !in s.committed;
    }
  }

  // ---------------------------------------------------------------------------------------
  // Kept until sent, if the purge finds only marked rows
  // ---------------------------------------------------------------------------------------

  ghost predicate LiveOrAcked(s: Sys) {
    forall id :: id in s.committed ==> IsLive(s.rows, id) || id in s.acked
  }

  lemma StepKeepsLiveOrAcked(s: Sys, st: Step, h: Rules)
    requires Inv(s) && LiveOrAcked(s) && Enabled(s, st) && Allowed(s, st, h) && h.purgeFindsMarked
    ensures LiveOrAcked(Apply(s, st))
  {
    var s' := Apply(s, st);
    StepKeepsInv(s, st);
    forall id | id in s'.committed ensures IsLive(s'.rows, id) || id in s'.acked {
      assert RowOk(s', id);
      assert id in s.committed ==> RowOk(s, id);
    }
  }

  lemma {:induction false} RunKeepsLiveOrAcked(s: Sys, steps: seq<Step>, h: Rules)
    requires Inv(s) && LiveOrAcked(s) && IsRun(s, steps, h) && h.purgeFindsMarked
    ensures LiveOrAcked(After(s, steps))
    decreases |steps|
  {
    if steps != [] {
      StepKeepsInv(s, steps[0]);
      StepKeepsLiveOrAcked(s, steps[0], h);
      RunKeepsLiveOrAcked(Apply(s, steps[0]), steps[1..], h);
    }
  }

  ghost predicate AlwaysLiveOrAcked(h: Rules) {
    forall steps :: IsRun(INIT, steps, h) ==> LiveOrAcked(After(INIT, steps))
  }

  /**
   In every run each committed message stays listed for retry, or is acked, if and only if the
   purge never finds an unmarked row past seven days. Whether the job lists it is another matter:
   JobTurns says which of its turns run at all.
   */
  lemma KeptUntilSentExactlyIfPurgeFindsMarked(h: Rules)
    ensures AlwaysLiveOrAcked(h) <==> h.purgeFindsMarked
  {
    if h.purgeFindsMarked {
      forall steps | IsRun(INIT, steps, h) ensures LiveOrAcked(After(INIT, steps)) {
        RunKeepsLiveOrAcked(INIT, steps, h);
      }
    } else {
      var s := PurgeTakesUndelivered(h);
      assert !LiveOrAcked(s);
    }
  }

  // ---------------------------------------------------------------------------------------
  // Marked means routed, if returns come first
  // ---------------------------------------------------------------------------------------

  /** No row was marked for a message the broker returned. */
  predicate MarkedWereRouted(s: Sys) {
    forall i :: 0 <= i < |s.waiters| ==> !(s.waiters[i].marked && s.waiters[i].bounced)
  }

  predicate WaiterOk(v: Waiter, h: Rules) {
    && (v.marked ==> v.closed && !v.bounced)
    && (h.routable ==> !v.bounced)
    && (h.listensFirst && v.bounced ==> v.heard)
  }

  predicate WaitersOk(s: Sys, h: Rules) {
    forall i :: 0 <= i < |s.waiters| ==> WaiterOk(s.waiters[i], h)
  }

  /** The rules under which a marked row's message was not returned. */
  predicate ReturnsCount(h: Rules) {
    h.routable || (h.returnsFirst && h.listensFirst)
  }

  lemma EventKeepsWaiterOk(v: Waiter, e: Event, h: Rules)
    requires WaiterOk(v, h) && MayHappen(v, e) && MayTell(v, e, h) && ReturnsCount(h)
    ensures WaiterOk(React(v, e), h)
  {
  }

  lemma StepKeepsWaitersOk(s: Sys, st: Step, h: Rules)
    requires WaitersOk(s, h) && Enabled(s, st) && Allowed(s, st, h) && ReturnsCount(h)
    ensures WaitersOk(Apply(s, st), h)
  {
    if st.Wait? {
      EventKeepsWaiterOk(s.waiters[st.w], st.e, h);
    }
  }

  lemma {:induction false} RunKeepsWaitersOk(s: Sys, steps: seq<Step>, h: Rules)
    requires WaitersOk(s, h) && IsRun(s, steps, h) && ReturnsCount(h)
    ensures WaitersOk(After(s, steps), h)
    decreases |steps|
  {
    if steps != [] {
      StepKeepsWaitersOk(s, steps[0], h);
      RunKeepsWaitersOk(Apply(s, steps[0]), steps[1..], h);
    }
  }

  ghost predicate AlwaysMarkedWereRouted(h: Rules) {
    forall steps :: IsRun(INIT, steps, h) ==> MarkedWereRouted(After(INIT, steps))
  }

  /**
   No row is marked for a returned message, in every run, if and only if nothing is returned, or
   returns come only once the waiter listens and its select takes them first.
   */
  lemma MarkedWereRoutedExactlyIfReturnsCount(h: Rules)
    ensures AlwaysMarkedWereRouted(h) <==> h.routable || (h.returnsFirst && h.listensFirst)
  {
    if ReturnsCount(h) {
      forall steps | IsRun(INIT, steps, h) ensures MarkedWereRouted(After(INIT, steps)) {
        RunKeepsWaitersOk(INIT, steps, h);
      }
    } else if !h.returnsFirst {
      var s := ReturnedMessageCountsAsSent(h);
    } else {
      var s := DroppedReturnCountsAsSent(h);
    }
  }

  // ---------------------------------------------------------------------------------------
  // Left alone, the steps do what the methods do
  // ---------------------------------------------------------------------------------------

  /** The clock record after the first `k` saves. */
  function SavedNow(saved: map<Id, nat>, ids: seq<Id>, now: nat, k: nat): map<Id, nat>
    requires k <= |ids|
  {
    if k == 0 then saved else SavedNow(saved, ids, now, k - 1)[ids[k - 1] := now]
  }

  lemma {:induction false} OnlyTheseSaved(saved: map<Id, nat>, ids: seq<Id>, now: nat, k: nat, id: Id)
    requires k <= |ids| && id !in saved && id !in ids[..k]
    ensures id !in SavedNow(saved, ids, now, k)
  {
    if k > 0 {
      assert ids[..k] == ids[..k - 1] + [ids[k - 1]];
      OnlyTheseSaved(saved, ids, now, k - 1, id);
    }
  }

  /** The transaction `t` after its first `k` saves. */
  function Saving(s: Sys, t: nat, ids: seq<Id>, rows: seq<Row>, k: nat): Sys
    requires k <= |ids| == |rows|
  {
    s.(txs := s.txs[t := Paired(ids, rows, k)], saved := SavedNow(s.saved, ids, s.now, k))
  }

  lemma SaveInSteps(s: Sys, t: nat, ids: seq<Id>, rows: seq<Row>, k: nat)
    requires k < |ids| == |rows| && Distinct(ids) && ids[k] !in s.saved
    requires rows[k] == RowFor(rows[k].body, s.now)
    ensures var mid, st := Saving(s, t, ids, rows, k), TxSave(t, ids[k], rows[k].body);
      Enabled(mid, st) && Apply(mid, st) == Saving(s, t, ids, rows, k + 1)
  {
    var mid := Saving(s, t, ids, rows, k);
    assert ids[k] !in ids[..k];
    OnlyTheseSaved(s.saved, ids, s.now, k, ids[k]);
    assert mid.txs[t := Paired(ids, rows, k + 1)] == s.txs[t := Paired(ids, rows, k + 1)];
  }

  lemma {:induction false} SavesInSteps(s: Sys, h: Rules, t: nat, ids: seq<Id>, rows: seq<Row>, n: nat)
    returns (s': Sys)
    requires Reaches(s, h) && t !in s.txs && t !in s.publishers
    requires n <= |ids| == |rows| && Distinct(ids) && forall i :: 0 <= i < |ids| ==> ids[i] !in s.saved
    requires forall i :: 0 <= i < |rows| ==> rows[i] == RowFor(rows[i].body, s.now)
    ensures Reaches(s', h) && s' == Saving(s, t, ids, rows, n)
    decreases n
  {
    if n == 0 {
      s' := Go(s, TxBegin(t), h);
    } else {
      s' := SavesInSteps(s, h, t, ids, rows, n - 1);
      SaveInSteps(s, t, ids, rows, n - 1);
      s' := Go(s', TxSave(t, ids[n - 1], rows[n - 1].body), h);
    }
  }

  lemma SameKeys(ids: seq<Id>, rows: seq<Row>, messages: seq<Payload>)
    requires |ids| == |rows| == |messages| && Distinct(ids)
    ensures Paired(ids, rows, |ids|).Keys == Paired(ids, messages, |ids|).Keys
  {
    PairedContents(ids, rows, |ids|);
    PairedContents(ids, messages, |ids|);
  }

  lemma WithAndWithout(txs: map<nat, Rows>, t: nat, rows: Rows)
    requires t !in txs
    ensures txs[t := rows] - {t} == txs
  {
  }

  lemma CommitInSteps(s: Sys, h: Rules, t: nat, rows: Rows, commits: bool) returns (s': Sys)
    requires Reaches(s, h) && (h.commitsSucceed ==> commits) && t in s.txs && s.txs[t] == rows
    ensures Reaches(s', h) && s'.txs == s.txs - {t} && s'.publishers == s.publishers[t := rows.Keys]
    ensures s'.rows == if commits then s.rows + rows else s.rows
  {
    s' := Go(s, TxCommit(t, commits), h);
  }

  /** A transaction that goes through and that nothing interrupts adds the method's rows and publishes its ids. */
  lemma SendInSteps(s: Sys, h: Rules, t: nat, c: Codec, fn: Business, messages: seq<Payload>, ids: seq<Id>,
                    saves: seq<bool>, commits: bool)
    returns (s': Sys)
    requires Reaches(s, h) && (h.commitsSucceed ==> commits) && t !in s.txs && t !in s.publishers
    requires |ids| == |messages| == |saves| && Goes(c, fn, messages, saves)
    requires Distinct(ids) && forall i :: 0 <= i < |ids| ==> ids[i] !in s.saved
    ensures Reaches(s', h)
    ensures s'.rows == if commits then s.rows + Paired(ids, RowsFor(c, messages, s.now), |ids|) else s.rows
    ensures s'.publishers == s.publishers[t := Paired(ids, messages, |ids|).Keys] && s'.txs == s.txs
  {
    var rows := RowsFor(c, messages, s.now);
    SameKeys(ids, rows, messages);
    WithAndWithout(s.txs, t, Paired(ids, rows, |ids|));
    var mid := SavesInSteps(s, h, t, ids, rows, |ids|);
    s' := CommitInSteps(mid, h, t, Paired(ids, rows, |ids|), commits);
  }

  /** One that fails after any number of saves is rolled back: no row, no publisher, as when the method errs. */
  lemma FailedSendInSteps(s: Sys, h: Rules, t: nat, c: Codec, messages: seq<Payload>, ids: seq<Id>, n: nat)
    returns (s': Sys)
    requires Reaches(s, h) && t !in s.txs && t !in s.publishers
    requires n <= |ids| == |messages| && Distinct(ids) && forall i :: 0 <= i < |ids| ==> ids[i] !in s.saved
    ensures Reaches(s', h)
    ensures s'.rows == s.rows && s'.publishers == s.publishers && s'.txs == s.txs && s'.waiters == s.waiters
  {
    var rows := RowsFor(c, messages, s.now);
    WithAndWithout(s.txs, t, Paired(ids, rows, n));
    s' := SavesInSteps(s, h, t, ids, rows, n);
    s' := Go(s', TxRollback(t), h);
  }

  /** A retried row starts as many waiters as `RetryPublishes` has publishes. */
  lemma RetryOneSendsItsPublishes(s: Sys, j: nat, c: Codec)
    requires Rest(s.pages, j) != []
    ensures var l := Rest(s.pages, j)[0];
      DoRetryOne(s, j, true).waiters == s.waiters + seq(|RetryPublishes(c, l.row)|, i => Waiting(l.id))
  {
    var row := Rest(s.pages, j)[0].row;
    assert Body(c, RetryPayload(c, row.body)).Some?;
    assert |RetryPublishes(c, row)| == if row.delayedTime > 0 then 2 else 1;
  }

  /** One waiter for each row, in order. */
  function OneEach(page: seq<Listed>): seq<Waiter> {
    if page == [] then [] else [Waiting(page[0].id)] + OneEach(page[1..])
  }

  lemma RowInSteps(s: Sys, h: Rules, j: nat) returns (s': Sys)
    requires Reaches(s, h) && Rest(s.pages, j) != []
    ensures Reaches(s', h) && s'.rows == s.rows && Rest(s'.pages, j) == Rest(s.pages, j)[1..]
    ensures s'.waiters == s.waiters + [Waiting(Rest(s.pages, j)[0].id)]
  {
    var steps :| IsRun(INIT, steps, h) && After(INIT, steps) == s;
    RunKeepsInv(INIT, steps, h);
    assert Rest(s.pages, j)[0] in Rest(s.pages, j);
    s' := Go(s, RetryOne(j, true), h);
  }

  /** A page that is published to its end starts one waiter for each of its rows, in order, and changes no row. */
  lemma {:induction false} PageInSteps(s: Sys, h: Rules, j: nat) returns (s': Sys)
    requires Reaches(s, h)
    ensures Reaches(s', h) && Rest(s'.pages, j) == [] && s'.rows == s.rows
    ensures s'.waiters == s.waiters + OneEach(Rest(s.pages, j))
    decreases |Rest(s.pages, j)|
  {
    s' := s;
    if Rest(s.pages, j) != [] {
      s' := RowInSteps(s, h, j);
      s' := PageInSteps(s', h, j);
    }
  }

  /** The purge step leaves what the daily job's method leaves. */
  lemma PurgeInSteps(s: Sys)
    ensures var rows := Apply(s, Purge).rows;
      && (forall id :: id in rows <==> id in s.rows && s.now <= s.rows[id].createdAt + 604_800)
      && (forall id :: id in rows ==> rows[id] == s.rows[id])
  {
  }

  // ---------------------------------------------------------------------------------------
  // What a confirmation waiter does
  // ---------------------------------------------------------------------------------------

  /** It changes the table only by taking an ack, and then only its own row's mark. */
  lemma OnlyAnAckMarks(s: Sys, w: nat, e: Event)
    requires w < |s.waiters| && MayHappen(s.waiters[w], e)
    ensures var v, rows := s.waiters[w], DoWait(s, w, e).rows;
      && (rows != s.rows ==> e == TakeConfirm(true) && v.confirm == Some(true))
      && rows.Keys == s.rows.Keys && (forall id :: id in rows && id != v.id ==> rows[id] == s.rows[id])
      && (e == TakeConfirm(true) && v.confirm == Some(true) && v.id in rows ==> rows[v.id].deleted)
  {
  }

  /** Once it listens it can end after a closure, a return or any confirmation, and without an ack it marks nothing. */
  lemma EndsUnmarkedWithoutAnAck(s: Sys, w: nat, deletes: bool)
    requires w < |s.waiters| && s.waiters[w].hearsReturns && !s.waiters[w].done
    ensures var v := s.waiters[w];
      && (v.closed || v.heard <==> MayHappen(v, TakeReturn))
      && (v.confirm.Some? <==> MayHappen(v, TakeConfirm(deletes)))
      && (v.closed || v.heard ==> React(v, TakeReturn).done && DoWait(s, w, TakeReturn).rows == s.rows)
      && (v.confirm.Some? ==> React(v, TakeConfirm(deletes)).done)
      && (v.confirm == Some(false) ==> DoWait(s, w, TakeConfirm(deletes)).rows == s.rows)
  {
  }
}

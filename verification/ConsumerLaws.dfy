/**
 The laws of the consumer side over whole runs: nothing is lost and each message is in one
 place; each with exactly the rules it needs (rabbitmq/rabbitmq.go, rabbitmq/listener.go).
 */
module ConsumerLaws {
  import opened Common
  import opened DeadLetters
  import opened ConsumerProtocol
  import opened ConsumerPlaces

  ghost predicate AllKept(s: Sys) {
    forall m :: m in s.routed ==> Kept(s, m)
  }

  ghost predicate AllInOnePlace(s: Sys) {
    forall m :: m in s.routed ==> InOnePlace(s, m)
  }

  // ---------------------------------------------------------------------------------------
  // No loss
  // ---------------------------------------------------------------------------------------

  lemma StepKeepsAll(s: Sys, st: Step, c: Conf)
    requires MayTake(s, st, c) && !st.DeadPanic? && AllKept(s)
    ensures AllKept(Apply(s, st, c))
  {
    var s' := Apply(s, st, c);
    forall m | m in s'.routed ensures Kept(s', m) {
      if m in s.routed {
        var p :| At(s, m, p);
        StepMoves(s, st, c, m, p);
      } else {
        assert At(s', m, InQueue(s.next));
      }
    }
  }

  lemma {:induction false} RunKeepsAll(s: Sys, steps: seq<Step>, c: Conf, h: Rules)
    requires Inv(s, c) && AllKept(s) && IsRun(s, steps, c, h) && Careful(c) && h.deadReturns
    ensures AllKept(After(s, steps, c))
    decreases |steps|
  {
    if steps != [] {
      StepKeepsAll(s, steps[0], c);
      StepKeepsInv(s, steps[0], c);
      RunKeepsAll(Apply(s, steps[0], c), steps[1..], c, h);
    }
  }

  // ---------------------------------------------------------------------------------------
  // One place each
  // ---------------------------------------------------------------------------------------

  /** No message is in two places, and none is anywhere before it is routed. */
  ghost predicate NowhereTwice(s: Sys) {
    && (forall m, p, q :: At(s, m, p) && At(s, m, q) ==> p == q)
    && (forall m, p :: At(s, m, p) ==> m in s.routed)
  }

  lemma StepKeepsNowhereTwice(s: Sys, st: Step, c: Conf)
    requires MayTakeStaying(s, st, c) && NowhereTwice(s)
    ensures NowhereTwice(Apply(s, st, c))
  {
    var s' := Apply(s, st, c);
    forall m, p | At(s', m, p) ensures m in s'.routed {
      StepComesFrom(s, st, c, m, p);
    }
    forall m, p, q | At(s', m, p) && At(s', m, q) ensures p == q {
      StepComesFrom(s, st, c, m, p);
      StepComesFrom(s, st, c, m, q);
    }
  }

  lemma {:induction false} RunKeepsNowhereTwice(s: Sys, steps: seq<Step>, c: Conf, h: Rules)
    requires Inv(s, c) && NowhereTwice(s) && DeadHolds(s) && Solo(s.table)
    requires IsRun(s, steps, c, h) && h.channelsStay && h.oneRetrier
    ensures NowhereTwice(After(s, steps, c))
    decreases |steps|
  {
    if steps != [] {
      StepKeepsNowhereTwice(s, steps[0], c);
      StepKeepsDeadHolds(s, steps[0], c);
      StepKeepsSolo(s, steps[0], c, h);
      StepKeepsInv(s, steps[0], c);
      RunKeepsNowhereTwice(Apply(s, steps[0], c), steps[1..], c, h);
    }
  }

  // ---------------------------------------------------------------------------------------
  // Every rule is needed
  // ---------------------------------------------------------------------------------------

  ghost predicate Reaches(s: Sys, c: Conf, h: Rules) {
    exists steps :: IsRun(INIT, steps, c, h) && After(INIT, steps, c) == s
  }

  lemma {:induction false} Extend(s: Sys, steps: seq<Step>, st: Step, c: Conf, h: Rules)
    requires IsRun(s, steps, c, h) && Enabled(After(s, steps, c), st, c) && Allowed(After(s, steps, c), st, h)
    ensures IsRun(s, steps + [st], c, h)
    ensures After(s, steps + [st], c) == Apply(After(s, steps, c), st, c)
    decreases |steps|
  {
    if steps == [] {
      assert IsRun(Apply(s, st, c), [], c, h);
    } else {
      assert (steps + [st])[1..] == steps[1..] + [st];
      Extend(Apply(s, steps[0], c), steps[1..], st, c, h);
    }
  }

  lemma Go(s: Sys, st: Step, c: Conf, h: Rules) returns (s': Sys)
    requires Reaches(s, c, h) && Enabled(s, st, c) && Allowed(s, st, h)
    ensures s' == Apply(s, st, c) && Reaches(s', c, h)
  {
    var steps :| IsRun(INIT, steps, c, h) && After(INIT, steps, c) == s;
    Extend(INIT, steps, st, c, h);
    s' := Apply(s, st, c);
  }

  /** Delivers what is queued at `k` and starts on it. */
  lemma HandOut(s: Sys, k: nat, c: Conf, h: Rules) returns (s': Sys)
    requires Reaches(s, c, h) && k in s.biz.queue
    requires c.workers > 1 || forall t :: t in s.biz.work ==> s.biz.work[t].channel != s.biz.channel
    ensures Reaches(s', c, h)
    ensures var item := s.biz.queue[k];
      s' == Called(s, item.msg).(next := s.next + 1,
        biz := s.biz.(queue := s.biz.queue - {k}, work := s.biz.work[s.next := Work(item, s.biz.channel, true)],
                      unacked := if c.autoAck then s.biz.unacked else s.biz.unacked[s.next := item]))
  {
    var t := s.next;
    s' := Go(s, Deliver(k), c, h);
    s' := Go(s', Start(t), c, h);
    assert s'.biz.work == s.biz.work[t := s'.biz.work[t]];
  }

  /** Message 0 is routed, delivered and being worked on. */
  lemma FirstCall(c: Conf, h: Rules) returns (s: Sys)
    ensures Reaches(s, c, h)
    ensures var item := Queued(0, false);
      s == INIT.(next := 2, routed := {0}, calls := map[0 := 1],
                 biz := Business(0, map[], if c.autoAck then map[] else map[1 := item],
                                 map[1 := Work(item, 0, true)], map[]))
  {
    assert IsRun(INIT, [], c, h) && After(INIT, [], c) == INIT;
    s := Go(INIT, Route(0), c, h);
    s := HandOut(s, 0, c, h);
    assert s.biz.queue == map[];
  }

  /** Its listener panics, so it goes to the dead queue and arrives at the dead listener. */
  lemma ToTheDeadListener(c: Conf, h: Rules) returns (s: Sys)
    requires !c.autoAck
    ensures Reaches(s, c, h)
    ensures s == INIT.(next := 3, routed := {0}, calls := map[0 := 1],
                       dead := DeadSide(map[], map[2 := 0], map[2 := DeadWork(0, Arrived)]))
  {
    s := FirstCall(c, h);
    s := Go(s, Finish(1, Panics, false), c, h);
    assert s.biz.unacked == map[] && s.biz.work == map[] && s.dead.queue == map[1 := 0];
    s := Go(s, DeadDeliver(1), c, h);
    assert s.dead.queue == map[];
  }

  lemma ToTheTable(c: Conf, h: Rules) returns (s: Sys)
    requires !c.autoAck
    ensures Reaches(s, c, h)
    ensures s.dead == DeadSide(map[], map[2 := 0], map[2 := DeadWork(0, Saved(0))])
    ensures s.table == Table(1, map[0 := TableRow(0, 0, false)], map[], map[])
    ensures s.routed == {0} && Calls(s, 0) == 1
  {
    s := ToTheDeadListener(c, h);
    s := Go(s, DeadSave(2, true), c, h);
  }

  /** AutoAck: the broker forgets the delivery before OnDelivery fails. */
  lemma AutoAckLoses(c: Conf, h: Rules) returns (s: Sys)
    requires c.autoAck
    ensures Reaches(s, c, h) && !AllKept(s)
  {
    s := FirstCall(c, h);
    s := Go(s, Finish(1, Fails, false), c, h);
    forall p ensures !At(s, 0, p) {
    }
  }

  lemma TwoInFlight(c: Conf, h: Rules) returns (s: Sys)
    requires !c.autoAck && c.workers > 1
    ensures Reaches(s, c, h) && s.routed == {0, 1} && s.dead == INIT.dead && s.table == INIT.table
    ensures s.biz == Business(0, map[], map[1 := Queued(0, false), 3 := Queued(1, false)],
      map[1 := Work(Queued(0, false), 0, true), 3 := Work(Queued(1, false), 0, true)], map[])
  {
    s := FirstCall(c, h);
    s := Go(s, Route(1), c, h);
    s := HandOut(s, 2, c, h);
    assert s.biz.queue == map[];
  }

  /** Multipart with two workers: acknowledging the later delivery also acknowledges the earlier one. */
  lemma MultipartLoses(c: Conf, h: Rules) returns (s: Sys)
    requires !c.autoAck && c.ack.multipart && c.workers > 1
    ensures Reaches(s, c, h) && !AllKept(s)
  {
    s := TwoInFlight(c, h);
    s := Go(s, Finish(3, Succeeds, false), c, h);
    assert s.biz.unacked == map[];
    forall p ensures !At(s, 0, p) {
    }
  }

  /** A panic in the dead listener rejects without requeueing, and the dead queue has no dead queue of its own. */
  lemma DeadPanicLoses(c: Conf, h: Rules) returns (s: Sys)
    requires !c.autoAck && !h.deadReturns
    ensures Reaches(s, c, h) && !AllKept(s)
  {
    s := ToTheDeadListener(c, h);
    s := Go(s, DeadPanic(2), c, h);
    forall p ensures !At(s, 0, p) {
    }
  }

  /** A channel lost between saving and acknowledging: the message is in the table and in the dead queue again. */
  lemma ChannelLossDoubles(c: Conf, h: Rules) returns (s: Sys)
    requires !c.autoAck && !h.channelsStay
    ensures Reaches(s, c, h) && !AllInOnePlace(s)
  {
    s := ToTheTable(c, h);
    s := Go(s, DeadChannelLoss, c, h);
    assert At(s, 0, InTable(0)) && At(s, 0, InDeadQueue(2));
  }

  /** Two jobs list the one row. */
  lemma ListedTwice(c: Conf, h: Rules) returns (s: Sys)
    requires !c.autoAck && !h.oneRetrier
    ensures Reaches(s, c, h) && s.routed == {0}
    ensures var l := Listed(0, TableRow(0, 0, false));
      s.table == Table(1, map[0 := l.row], map[0 := [l], 1 := [l]], map[])
  {
    s := ToTheTable(c, h);
    var l := Listed(0, TableRow(0, 0, false));
    s := Go(s, RetryList(0, [0]), c, h);
    assert PageOf(s.table, 0) == [l];
    s := Go(s, RetryList(1, [0]), c, h);
    assert PageOf(s.table, 1) == [l];
  }

  /** One succeeds and removes the row; the other fails and writes its stale copy back. */
  lemma StaleCopyRestores(c: Conf, h: Rules) returns (s: Sys)
    requires !c.autoAck && !h.oneRetrier
    ensures Reaches(s, c, h) && !AllInOnePlace(s)
  {
    s := ListedTwice(c, h);
    s := Go(s, RetryOne(0, Succeeds, true), c, h);
    s := Go(s, RetryOne(1, Fails, true), c, h);
    assert At(s, 0, InTable(0)) && At(s, 0, RetriedAway(0));
  }

  ghost predicate AlwaysKept(c: Conf, h: Rules) {
    forall steps :: IsRun(INIT, steps, c, h) ==> AllKept(After(INIT, steps, c))
  }

  ghost predicate AlwaysInOnePlace(c: Conf, h: Rules) {
    forall steps :: IsRun(INIT, steps, c, h) ==> AllInOnePlace(After(INIT, steps, c))
  }

  lemma LosesUnlessCareful(c: Conf, h: Rules) returns (s: Sys)
    requires !Careful(c) || !h.deadReturns
    ensures Reaches(s, c, h) && !AllKept(s)
  {
    if c.autoAck {
      s := AutoAckLoses(c, h);
    } else if !Careful(c) {
      s := MultipartLoses(c, h);
    } else {
      s := DeadPanicLoses(c, h);
    }
  }

  /**
   No loss on the consumer side: in every run every routed message is queued, in flight, done,
   in the dead queue, in the dead table or retried away, whatever channels are lost and writes
   fail; if and only if replies are manual and settle one delivery each, and the dead listener
   does not panic.
   */
  lemma KeptExactlyIfCareful(c: Conf, h: Rules)
    ensures AlwaysKept(c, h) <==> Careful(c) && h.deadReturns
  {
    if Careful(c) && h.deadReturns {
      forall steps | IsRun(INIT, steps, c, h) ensures AllKept(After(INIT, steps, c)) {
        RunKeepsAll(INIT, steps, c, h);
      }
    } else {
      var s := LosesUnlessCareful(c, h);
    }
  }

  /**
   Each message is then in exactly one place if and only if, besides, no channel is lost and no
   two retry jobs run at once.
   */
  lemma InOnePlaceExactlyWithoutChannelLoss(c: Conf, h: Rules)
    ensures AlwaysInOnePlace(c, h) <==> Careful(c) && h.deadReturns && h.channelsStay && h.oneRetrier
  {
    if !Careful(c) || !h.deadReturns {
      var s := LosesUnlessCareful(c, h);
    } else if !h.channelsStay {
      var s := ChannelLossDoubles(c, h);
    } else if !h.oneRetrier {
      var s := StaleCopyRestores(c, h);
    } else {
      forall steps | IsRun(INIT, steps, c, h) ensures AllInOnePlace(After(INIT, steps, c)) {
        RunKeepsAll(INIT, steps, c, h);
        RunKeepsNowhereTwice(INIT, steps, c, h);
      }
    }
  }
}

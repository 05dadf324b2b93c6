/**
 How often, with which code and with which log id the goroutines of the executor call back
 (xxl/task.go, xxl/util.go).
 */
module ExecutorCallbacks {
  import opened Common
  import opened XxlTask
  import opened ExecutorProtocol

  function PostsBy(posts: seq<Post>, r: nat): nat {
    if posts == [] then 0
    else PostsBy(posts[..|posts| - 1], r) + One(posts[|posts| - 1].run == r)
  }

  // ---------------------------------------------------------------------------------------
  // Once each, with the right code
  // ---------------------------------------------------------------------------------------

  predicate RightCode(s: Sys, i: nat)
    requires i < |s.posts|
  {
    var p := s.posts[i];
    && p.run < |s.runs| && s.runs[p.run].outcome.Some?
    && p.code == if s.runs[p.run].outcome.value.ReturnsNil? then 200 else 500
  }

  /** No goroutine posts twice, one that has come to its end has posted, and each post has the code of its outcome. */
  ghost predicate EachOnce(s: Sys) {
    && (forall r: nat :: PostsBy(s.posts, r) <= 1)
    && (forall r: nat :: r < |s.runs| && s.runs[r].pc.Reported? ==> PostsBy(s.posts, r) == 1)
    && (forall i: nat :: i < |s.posts| ==> RightCode(s, i))
  }

  /** Where a goroutine has posted, if no callback panics. */
  predicate HasPosted(run: Run) {
    match run.pc
    case Posted => true
    case Deferring => !run.panicking
    case Cancelling => true
    case Reported => true
    case _ => false
  }

  /** What `Task.Run` knows at each point, if no callback panics. */
  predicate PathOk(run: Run) {
    && (run.pc.Waiting? || run.pc.Guarded? || run.pc.Working? <==> run.outcome.None?)
    && (run.pc.Calling? || run.pc.Unlisted? ==> run.pc.code == CodeFor(run.outcome.value))
    && (run.panicking ==> run.pc.Deferring? && run.outcome.value.TaskPanics?)
  }

  function Unposted(runs: seq<Run>): nat {
    if runs == [] then 0
    else Unposted(runs[..|runs| - 1]) + One(!HasPosted(runs[|runs| - 1]))
  }

  ghost predicate OncePerRun(s: Sys) {
    && (forall r: nat :: PostsBy(s.posts, r) == One(r < |s.runs| && HasPosted(s.runs[r])))
    && (forall r: nat :: r < |s.runs| ==> PathOk(s.runs[r]))
    && (forall i: nat :: i < |s.posts| ==> RightCode(s, i))
    && |s.runs| == Unposted(s.runs) + |s.posts|
  }

  lemma {:induction false} UnpostedUpdate(runs: seq<Run>, r: nat, run: Run)
    requires r < |runs|
    ensures Unposted(runs[r := run]) + One(!HasPosted(runs[r])) == Unposted(runs) + One(!HasPosted(run))
  {
    var n := |runs| - 1;
    if r < n {
      assert runs[r := run][..n] == runs[..n][r := run];
      UnpostedUpdate(runs[..n], r, run);
    } else {
      assert runs[r := run][..n] == runs[..n];
    }
  }

  /** One action: only a post makes a goroutine count as having posted, and outcomes do not change later. */
  lemma ActPosts(run: Run, rec: Rec, a: Action)
    requires PathOk(run) && MayAct(run, a) && !a.CallbackPanic?
    ensures var run' := Act(run, rec, a);
      && PathOk(run') && One(HasPosted(run')) == One(HasPosted(run)) + One(a.CallbackPost?)
      && (run.outcome.Some? ==> run'.outcome == run.outcome)
  {
  }

  lemma PostKeepsOnce(s: Sys, r: nat)
    requires Grounded(s) && Enabled(s, Of(r, CallbackPost)) && OncePerRun(s)
    ensures OncePerRun(DoAct(s, r, CallbackPost))
  {
    var s' := DoAct(s, r, CallbackPost);
    ActPosts(s.runs[r], s.v.recs[s.runs[r].ref], CallbackPost);
    UnpostedUpdate(s.runs, r, s'.runs[r]);
    assert s'.posts[..|s.posts|] == s.posts;
    forall i: nat | i < |s'.posts| ensures RightCode(s', i) {
      assert i < |s.posts| ==> RightCode(s, i);
    }
  }

  lemma RightCodesStay(s: Sys, r: nat, a: Action, i: nat)
    requires Grounded(s) && Enabled(s, Of(r, a)) && OncePerRun(s) && !a.CallbackPost? && !a.CallbackPanic?
    requires i < |s.posts|
    ensures DoAct(s, r, a).posts == s.posts && RightCode(DoAct(s, r, a), i)
  {
    ActFrame(s, r, a);
    ActPosts(s.runs[r], s.v.recs[s.runs[r].ref], a);
    assert RightCode(s, i);
  }

  /** The other actions neither post nor make anybody count as having posted. */
  lemma ActKeepsOnce(s: Sys, r: nat, a: Action)
    requires Grounded(s) && Enabled(s, Of(r, a)) && OncePerRun(s) && !a.CallbackPost? && !a.CallbackPanic?
    ensures OncePerRun(DoAct(s, r, a))
  {
    var s', run := DoAct(s, r, a), Act(s.runs[r], s.v.recs[s.runs[r].ref], a);
    ActFrame(s, r, a);
    ActPosts(s.runs[r], s.v.recs[s.runs[r].ref], a);
    UnpostedUpdate(s.runs, r, run);
    assert s'.posts == s.posts && s'.runs == s.runs[r := run];
    forall i: nat | i < |s'.posts| ensures RightCode(s', i) {
      RightCodesStay(s, r, a, i);
    }
  }

  lemma LaunchKeepsOnce(s: Sys, s': Sys, ref: nat, req: Req)
    requires OncePerRun(s) && s'.posts == s.posts && s'.runs == s.runs + [NewRun(ref, req)]
    ensures OncePerRun(s')
  {
    assert s'.runs[..|s.runs|] == s.runs;
    forall i: nat | i < |s'.posts| ensures RightCode(s', i) {
      assert RightCode(s, i);
    }
  }

  lemma SameKeepsOnce(s: Sys, s': Sys)
    requires OncePerRun(s) && s'.posts == s.posts && s'.runs == s.runs
    ensures OncePerRun(s')
  {
    forall i: nat | i < |s'.posts| ensures RightCode(s', i) {
      assert RightCode(s, i);
    }
  }

  lemma StepKeepsOnce(s: Sys, st: Step)
    requires Grounded(s) && Enabled(s, st) && OncePerRun(s) && (st.Of? ==> !st.a.CallbackPanic?)
    ensures OncePerRun(Apply(s, st))
  {
    var s' := Apply(s, st);
    match st
    case Launch => LaunchKeepsOnce(s, s', s.request.ref, s.request.req);
    case Of(r, a) =>
      if a.CallbackPost? {
        PostKeepsOnce(s, r);
      } else {
        ActKeepsOnce(s, r, a);
      }
    case _ => SameKeepsOnce(s, s');
  }

  lemma {:induction false} RunKeepsOnce(s: Sys, steps: seq<Step>, h: Rules, job: string -> int)
    requires Grounded(s) && OncePerRun(s) && IsRun(s, steps, h, job) && h.callbacksReturn
    ensures OncePerRun(After(s, steps))
    decreases |steps|
  {
    if steps != [] {
      StepKeepsOnce(s, steps[0]);
      StepKeepsGrounded(s, steps[0]);
      RunKeepsOnce(Apply(s, steps[0]), steps[1..], h, job);
    }
  }

  /**
   Conservation: in every interleaving and under every block strategy, launches are the
   goroutines that have not posted yet plus the posts, and each goroutine has posted once from
   its post on and never before, whether its task returns nil, an error or panics.
   */
  lemma OneCallbackPerLaunch(steps: seq<Step>, h: Rules, job: string -> int)
    requires IsRun(INIT, steps, h, job) && h.callbacksReturn
    ensures var s := After(INIT, steps);
      && s.v.launched == |s.runs| == Unposted(s.runs) + |s.posts|
      && (forall r: nat :: r < |s.runs| ==> PostsBy(s.posts, r) == One(HasPosted(s.runs[r])))
      && EachOnce(s)
  {
    RunKeepsOnce(INIT, steps, h, job);
  }

  /** A callback that panics after its post is entered again, posts again, and reports a success as a failure. */
  lemma PanickedCallbackPostsTwice(h: Rules, job: string -> int) returns (s: Sys)
    requires h == Rules(true, true, true, false, true)
    ensures Reaches(s, h, job) && !EachOnce(s)
  {
    s := Begin(h, job, "h");
    s := LaunchThrough(s, Req(job("h"), "h", false, 1), h, job);
    s := ReturnThrough(s, 0, h, job);
    s := PostThrough(s, 0, h, job);
    s := Go(s, Of(0, CallbackPanic), h, job);
    s := Go(s, Of(0, Recover), h, job);
    s := Go(s, Of(0, CallbackDel), h, job);
    s := Go(s, Of(0, CallbackPost), h, job);
    assert s.posts[0].code == 200 && s.posts[1].code == 500 && s.runs[0].outcome == Some(ReturnsNil);
    assert !RightCode(s, 1);
  }

  lemma PostThrough(s: Sys, r: nat, h: Rules, job: string -> int) returns (s': Sys)
    requires Reaches(s, h, job) && r < |s.runs| && s.runs[r].pc.Unlisted?
    ensures Grounded(s) && Reaches(s', h, job)
    ensures s.v.recs[s.runs[r].ref].param.Some?
    ensures s' == s.(runs := s.runs[r := s.runs[r].(pc := Posted)],
                     posts := s.posts + [Post(r, s.v.recs[s.runs[r].ref].param.value.logId, s.runs[r].pc.code)])
  {
    s' := Go(s, Of(r, CallbackPost), h, job);
  }

  ghost predicate AlwaysEachOnce(h: Rules, job: string -> int) {
    forall steps :: IsRun(INIT, steps, h, job) ==> EachOnce(After(INIT, steps))
  }

  /** Exactly one callback per run, with the code of its outcome, if and only if no callback panics. */
  lemma EachOnceExactlyIfCallbacksReturn(h: Rules, job: string -> int)
    ensures AlwaysEachOnce(h, job) <==> h.callbacksReturn
  {
    if h.callbacksReturn {
      forall steps | IsRun(INIT, steps, h, job) ensures EachOnce(After(INIT, steps)) {
        OneCallbackPerLaunch(steps, h, job);
      }
    } else {
      var strict := Rules(true, true, true, false, true);
      var s := PanickedCallbackPostsTwice(strict, job);
      var steps :| IsRun(INIT, steps, strict, job) && After(INIT, steps) == s;
      RulesRelax(INIT, steps, strict, h, job);
    }
  }

  // ---------------------------------------------------------------------------------------
  // A panic, and only a panic, cancels the run's context
  // ---------------------------------------------------------------------------------------

  predicate Panicked(run: Run) {
    run.outcome == Some(TaskPanics)
  }

  predicate CancelOk(run: Run, cancelled: set<nat>) {
    && (run.recovering ==> Panicked(run))
    && (run.pc.Calling? || run.pc.Unlisted? || run.pc.Posted? ==> run.recovering == Panicked(run))
    && (run.pc.Deferring? ==> run.panicking == Panicked(run) && !run.recovering)
    && (run.pc.Cancelling? ==> Panicked(run))
    && (run.pc.Reported? && Panicked(run) && run.guard.Some? ==> run.guard.value in cancelled)
    && (run.pc.Waiting? || run.pc.Guarded? || run.pc.Working? ==> run.outcome.None? && !run.panicking)
    && (run.panicking ==> run.pc.Deferring?)
  }

  predicate AllCancelOk(s: Sys) {
    forall r :: 0 <= r < |s.runs| ==> CancelOk(s.runs[r], s.v.cancelled)
  }

  lemma ActKeepsCancelOk(run: Run, rec: Rec, a: Action, before: set<nat>, after: set<nat>)
    requires CancelOk(run, before) && MayAct(run, a) && !a.CallbackPanic? && before <= after
    requires a.CancelOwn? && run.guard.Some? ==> run.guard.value in after
    ensures CancelOk(Act(run, rec, a), after)
  {
  }

  lemma StepKeepsCancelOk(s: Sys, st: Step)
    requires Grounded(s) && Enabled(s, st) && AllCancelOk(s) && (st.Of? ==> !st.a.CallbackPanic?)
    ensures AllCancelOk(Apply(s, st))
  {
    var s' := Apply(s, st);
    match st
    case Of(r, a) =>
      ActFrame(s, r, a);
      ActKeepsCancelOk(s.runs[r], s.v.recs[s.runs[r].ref], a, s.v.cancelled, s'.v.cancelled);
    case _ => assert s.v.cancelled <= s'.v.cancelled;
  }

  lemma {:induction false} RunKeepsCancelOk(s: Sys, steps: seq<Step>, h: Rules, job: string -> int)
    requires Grounded(s) && AllCancelOk(s) && IsRun(s, steps, h, job) && h.callbacksReturn
    ensures AllCancelOk(After(s, steps))
    decreases |steps|
  {
    if steps != [] {
      StepKeepsCancelOk(s, steps[0]);
      StepKeepsGrounded(s, steps[0]);
      RunKeepsCancelOk(Apply(s, steps[0]), steps[1..], h, job);
    }
  }

  /**
   In every interleaving in which no callback panics, a goroutine cancels a context itself only if
   its task has panicked, and one whose task has panicked has done so when it comes to its end.
   */
  lemma PanicsExactlyCancel(steps: seq<Step>, h: Rules, job: string -> int, r: nat)
    requires IsRun(INIT, steps, h, job) && h.callbacksReturn && r < |After(INIT, steps).runs|
    ensures var s, run := After(INIT, steps), After(INIT, steps).runs[r];
      && (Enabled(s, Of(r, CancelOwn)) ==> run.outcome == Some(TaskPanics))
      && (run.pc.Reported? && run.outcome == Some(TaskPanics) && run.guard.Some? ==> run.guard.value in s.v.cancelled)
  {
    RunKeepsCancelOk(INIT, steps, h, job);
  }

  // ---------------------------------------------------------------------------------------
  // Left alone, a goroutine does what Task.Run does
  // ---------------------------------------------------------------------------------------

  /** Up to its callback, which is entered with the code of the outcome. */
  lemma ToItsCallback(s: Sys, r: nat, outcome: Outcome, h: Rules, job: string -> int) returns (s': Sys)
    requires Reaches(s, h, job) && r < |s.runs| && s.runs[r] == NewRun(s.runs[r].ref, s.runs[r].req)
    ensures Grounded(s) && Reaches(s', h, job)
    ensures var run, cancel := s.runs[r], s.v.recs[s.runs[r].ref].cancel;
      s' == s.(runs := s.runs[r :=
        run.(pc := Calling(if outcome.ReturnsNil? then 200 else 500), guard := cancel, ctx := cancel,
             outcome := Some(outcome), recovering := outcome.TaskPanics?)])
  {
    s' := Go(s, Of(r, Guard), h, job);
    s' := Go(s', Of(r, Enter), h, job);
    s' := Go(s', Of(r, Finish(outcome)), h, job);
    if outcome.TaskPanics? {
      s' := Go(s', Of(r, Recover), h, job);
    }
    assert s'.runs == s.runs[r := s'.runs[r]];
  }

  /** The callback: list, then post. */
  lemma ThroughItsCallback(s: Sys, r: nat, h: Rules, job: string -> int) returns (s': Sys)
    requires Reaches(s, h, job) && r < |s.runs| && s.runs[r].pc.Calling?
    requires h.quietKill ==> !s.request.KillFetching?
    ensures Grounded(s) && Reaches(s', h, job) && s.v.recs[s.runs[r].ref].param.Some?
    ensures var run, rec := s.runs[r], s.v.recs[s.runs[r].ref];
      s' == s.(runs := s.runs[r := run.(pc := Posted, unlisted := true)], v := Deleted(s.v, Key(rec.id)),
               posts := s.posts + [Post(r, rec.param.value.logId, run.pc.code)])
  {
    s' := Go(s, Of(r, CallbackDel), h, job);
    s' := Go(s', Of(r, CallbackPost), h, job);
    assert s'.runs == s.runs[r := s'.runs[r]];
  }

  /** What follows it: back in the deferred handler, or at its end. */
  lemma ToItsEnd(s: Sys, r: nat, h: Rules, job: string -> int) returns (s': Sys)
    requires Reaches(s, h, job) && r < |s.runs| && s.runs[r].pc.Posted? && !s.runs[r].panicking
    ensures Grounded(s) && Reaches(s', h, job)
    ensures var run := s.runs[r];
      s' == s.(runs := s.runs[r := run.(pc := Reported)],
               v := s.v.(cancelled := s.v.cancelled
                 + if run.recovering && run.guard.Some? then {run.guard.value} else {}))
  {
    s' := Go(s, Of(r, CallbackReturn), h, job);
    s' := Go(s', if s.runs[r].recovering then Of(r, CancelOwn) else Of(r, Recover), h, job);
    assert s'.runs == s.runs[r := s'.runs[r]];
  }

  /**
   Task.Run from start to end: the job's key goes off the list, one callback is posted with the
   launch's log id and code 200 for nil and 500 for an error or a panic, and only after a panic
   the launch's context is cancelled.
   */
  lemma TaskRunInSteps(s: Sys, r: nat, outcome: Outcome, h: Rules, job: string -> int) returns (s': Sys)
    requires Reaches(s, h, job) && r < |s.runs| && s.runs[r] == NewRun(s.runs[r].ref, s.runs[r].req)
    requires h.quietKill ==> !s.request.KillFetching?
    ensures Grounded(s) && Reaches(s', h, job) && s.v.recs[s.runs[r].ref].param.Some?
    ensures var rec := s.v.recs[s.runs[r].ref];
      && r < |s'.runs| && s'.runs[r].pc.Reported? && s'.runs[r].unlisted && s'.runs == s.runs[r := s'.runs[r]]
      && s'.request == s.request
      && s'.posts == s.posts + [Post(r, rec.param.value.logId, if outcome.ReturnsNil? then 200 else 500)]
      && s'.v == s.v.(run := s.v.run - {Key(rec.id)}, cancelled := s'.v.cancelled)
      && s'.v.cancelled == s.v.cancelled
         + if outcome.TaskPanics? && rec.cancel.Some? then {rec.cancel.value} else {}
  {
    s' := ToItsCallback(s, r, outcome, h, job);
    s' := ThroughItsCallback(s', r, h, job);
    s' := ToItsEnd(s', r, h, job);
  }

  // ---------------------------------------------------------------------------------------
  // Log ids
  // ---------------------------------------------------------------------------------------

  /** Every post carries the log id of the request its own goroutine was launched with. */
  predicate OwnLogIds(s: Sys) {
    forall i :: 0 <= i < |s.posts| ==>
      s.posts[i].run < |s.runs| && s.posts[i].logId == s.runs[s.posts[i].run].req.logId
  }

  /** Whose request the record at `ref` holds: the latest launch on it. */
  predicate HoldsLatest(s: Sys, ref: nat, q: nat) {
    && ref < |s.v.recs| && q < |s.runs| && s.runs[q].ref == ref
    && s.v.recs[ref].param == Some(s.runs[q].req)
    && (forall p :: q < p < |s.runs| ==> s.runs[p].ref != ref)
  }

  ghost predicate LatestKnown(s: Sys) {
    forall ref: nat :: ref < |s.v.recs| && s.v.recs[ref].param.Some? ==> exists q: nat :: HoldsLatest(s, ref, q)
  }

  lemma ActKeepsLatest(s: Sys, r: nat, a: Action, ref: nat, q: nat)
    requires Grounded(s) && Enabled(s, Of(r, a)) && HoldsLatest(s, ref, q)
    ensures HoldsLatest(DoAct(s, r, a), ref, q)
  {
    ActFrame(s, r, a);
    ActKeepsRef(s.runs[r], s.v.recs[s.runs[r].ref], a);
  }

  lemma OtherStepsKeepLatest(s: Sys, st: Step, ref: nat, q: nat)
    requires Grounded(s) && Enabled(s, st) && HoldsLatest(s, ref, q) && !(st.Launch? && ref == s.request.ref)
    ensures HoldsLatest(Apply(s, st), ref, q)
  {
    if st.Of? {
      ActKeepsLatest(s, st.r, st.a, ref, q);
    }
  }

  lemma StepKeepsLatest(s: Sys, st: Step)
    requires Grounded(s) && Enabled(s, st) && LatestKnown(s)
    ensures LatestKnown(Apply(s, st))
  {
    var s' := Apply(s, st);
    forall ref: nat | ref < |s'.v.recs| && s'.v.recs[ref].param.Some? ensures exists q: nat :: HoldsLatest(s', ref, q) {
      if st.Launch? && ref == s.request.ref {
        assert HoldsLatest(s', ref, |s.runs|);
      } else {
        if st.Of? {
          ActFrame(s, st.r, st.a);
        }
        var q: nat :| HoldsLatest(s, ref, q);
        OtherStepsKeepLatest(s, st, ref, q);
      }
    }
  }

  lemma {:induction false} RunKeepsLatest(s: Sys, steps: seq<Step>, h: Rules, job: string -> int)
    requires Grounded(s) && LatestKnown(s) && IsRun(s, steps, h, job)
    ensures LatestKnown(After(s, steps))
    decreases |steps|
  {
    if steps != [] {
      StepKeepsLatest(s, steps[0]);
      StepKeepsGrounded(s, steps[0]);
      RunKeepsLatest(Apply(s, steps[0]), steps[1..], h, job);
    }
  }

  /**
   In every interleaving a callback reports the log id of the latest launch on its record, so
   it is its own exactly if that launch carries the same log id.
   */
  lemma CallbackReportsTheLatest(steps: seq<Step>, h: Rules, job: string -> int, r: nat) returns (q: nat)
    requires IsRun(INIT, steps, h, job) && Enabled(After(INIT, steps), Of(r, CallbackPost))
    ensures var s := After(INIT, steps);
      r <= q && HoldsLatest(s, s.runs[r].ref, q)
        && Apply(s, Of(r, CallbackPost)).posts == s.posts + [Post(r, s.runs[q].req.logId, s.runs[r].pc.code)]
  {
    RunKeepsLatest(INIT, steps, h, job);
    var s := After(INIT, steps);
    q :| HoldsLatest(s, s.runs[r].ref, q);
    assert r <= q && s.v.recs[s.runs[r].ref].param == Some(s.runs[q].req);
  }

  predicate UnreportedOwnTheirRecord(s: Sys) {
    forall r :: 0 <= r < |s.runs| && !s.runs[r].pc.Reported? ==>
      s.runs[r].ref < |s.v.recs| && s.v.recs[s.runs[r].ref].param == Some(s.runs[r].req)
  }

  lemma ActKeepsOwnLogIds(s: Sys, r: nat, a: Action)
    requires Grounded(s) && OwnLogIds(s) && UnreportedOwnTheirRecord(s) && Enabled(s, Of(r, a))
    ensures OwnLogIds(DoAct(s, r, a)) && UnreportedOwnTheirRecord(DoAct(s, r, a))
  {
    ActFrame(s, r, a);
    ActKeepsRef(s.runs[r], s.v.recs[s.runs[r].ref], a);
  }

  lemma StepKeepsOwnLogIds(s: Sys, st: Step, h: Rules, job: string -> int)
    requires Grounded(s) && OwnLogIds(s) && UnreportedOwnTheirRecord(s)
    requires Enabled(s, st) && Allowed(s, st, h, job) && h.noOverlap
    ensures OwnLogIds(Apply(s, st)) && UnreportedOwnTheirRecord(Apply(s, st))
  {
    if st.Of? {
      ActKeepsOwnLogIds(s, st.r, st.a);
    }
  }

  lemma {:induction false} RunKeepsOwnLogIds(s: Sys, steps: seq<Step>, h: Rules, job: string -> int)
    requires Grounded(s) && OwnLogIds(s) && UnreportedOwnTheirRecord(s)
    requires IsRun(s, steps, h, job) && h.noOverlap
    ensures OwnLogIds(After(s, steps))
    decreases |steps|
  {
    if steps != [] {
      StepKeepsGrounded(s, steps[0]);
      StepKeepsOwnLogIds(s, steps[0], h, job);
      RunKeepsOwnLogIds(Apply(s, steps[0]), steps[1..], h, job);
    }
  }

  /** A launch between the two halves of a callback: the first goroutine reports the second's id. */
  lemma CallbackReportsItsSuccessor(h: Rules, job: string -> int) returns (s: Sys)
    requires h == Rules(true, true, false, true, true)
    ensures Reaches(s, h, job) && !OwnLogIds(s)
  {
    var j := job("h");
    s := Begin(h, job, "h");
    s := LaunchThrough(s, Req(j, "h", false, 1), h, job);
    s := ReturnThrough(s, 0, h, job);
    s := LaunchThrough(s, Req(j, "h", false, 2), h, job);
    s := PostThrough(s, 0, h, job);
    assert s.posts[0] == Post(0, 2, 200);
  }

  ghost predicate AlwaysOwnLogIds(h: Rules, job: string -> int) {
    forall steps :: IsRun(INIT, steps, h, job) ==> OwnLogIds(After(INIT, steps))
  }

  /** Each callback reports its own request if and only if runs of one handler never overlap. */
  lemma OwnLogIdsExactlyWithoutOverlap(h: Rules, job: string -> int)
    ensures AlwaysOwnLogIds(h, job) <==> h.noOverlap
  {
    if h.noOverlap {
      forall steps | IsRun(INIT, steps, h, job) ensures OwnLogIds(After(INIT, steps)) {
        RunKeepsOwnLogIds(INIT, steps, h, job);
      }
    } else {
      var strict := Rules(true, true, false, true, true);
      var s := CallbackReportsItsSuccessor(strict, job);
      var steps :| IsRun(INIT, steps, strict, job) && After(INIT, steps) == s;
      RulesRelax(INIT, steps, strict, h, job);
    }
  }

  // ---------------------------------------------------------------------------------------
  // The rules leave the executor its work
  // ---------------------------------------------------------------------------------------

  const STRICT := Rules(true, true, true, true, true)

  /** A job has been launched and killed, and its goroutine has not begun. */
  lemma KilledJob(h: Rules, job: string -> int) returns (s: Sys)
    ensures Reaches(s, h, job) && Grounded(s) && s.request.Idle? && s.posts == []
    ensures s.runs == [NewRun(0, Req(job("h"), "h", false, 1))]
    ensures s.v.run == map[] && s.v.reg == map["h" := 0] && s.v.cancelled == {0} && s.v.launched == 1
    ensures |s.v.recs| == 1 && s.v.recs[0].id == job("h") && s.v.recs[0].cancel == Some(0)
  {
    var j := job("h");
    s := Begin(h, job, "h");
    s := LaunchThrough(s, Req(j, "h", false, 1), h, job);
    s := Go(s, KillBegin(j), h, job);
    s := Go(s, KillGet, h, job);
    StepKeepsGrounded(s, KillDel);
    s := Go(s, KillDel, h, job);
  }

  /** Under all the rules a job is launched, killed, and after its goroutine's callback launched again. */
  lemma RelaunchUnderTheRules(job: string -> int) returns (s: Sys)
    ensures Reaches(s, STRICT, job) && |s.runs| == 2 && s.v.cancelled == {0} && Active(s, 1) && |s.posts| == 1
  {
    s := KilledJob(STRICT, job);
    s := TaskRunInSteps(s, 0, ReturnsErr, STRICT, job);
    s := LaunchThrough(s, Req(job("h"), "h", false, 2), STRICT, job);
  }
}

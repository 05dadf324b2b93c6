/**
 Interleavings of run and kill requests, task goroutines and their callbacks (xxl/executor.go,
 xxl/task.go).

 Requests hold the executor's mutex, so at most one is under way; callbacks take no mutex and
 fall between any two list operations of a request. Both lists hold positions in one heap of
 task records, so a launch changes what earlier goroutines of the same handler read.
 */
module ExecutorProtocol {
  import opened Common
  import opened Decimal
  import opened XxlTask

  /** Where the request holding the mutex stands. */
  datatype Request =
    | Idle
    | RunChecked(req: Req)            // the handler is registered
    | RunCovering(req: Req)           // COVER_EARLY found the job listed
    | RunUncovering(req: Req, ref: nat)  // the listed record was cancelled
    | RunFetching(req: Req)
    | RunLaunching(req: Req, ref: nat)
    | KillFetching(jobId: int)
    | KillDeleting(jobId: int)

  /** How the task function ends. */
  datatype Outcome = ReturnsNil | ReturnsErr | TaskPanics

  /** Where a goroutine of `Task.Run` stands; a callback carries its code. */
  datatype RunPc =
    | Waiting
    | Guarded               // the deferred handler holds its cancel function
    | Working
    | Calling(code: int)    // in the callback, before the list
    | Unlisted(code: int)   // in the callback, before the post
    | Posted                // in the callback, before its return
    | Deferring             // in the deferred handler, before recover
    | Cancelling            // in the deferred handler, before cancel
    | Reported

  /**
   One goroutine: `guard` and `ctx` are the cancel function and the context it read from its
   record; `unlisted` records that it has taken its job off the list.
   */
  datatype Run = Run(
    ref: nat,
    req: Req,
    pc: RunPc,
    guard: Option<nat>,
    ctx: Option<nat>,
    outcome: Option<Outcome>,
    panicking: bool,
    recovering: bool,
    unlisted: bool)

  function NewRun(ref: nat, req: Req): Run {
    Run(ref, req, Waiting, None, None, None, false, false, false)
  }

  /** A posted callback: the goroutine it comes from, and the log id and code it carries. */
  datatype Post = Post(run: nat, logId: int, code: int)

  datatype Sys = Sys(v: View, request: Request, runs: seq<Run>, posts: seq<Post>, nilReads: nat)

  /** What a goroutine does next; a panic of a callback is one of the task function's caller. */
  datatype Action =
    | Guard
    | Enter
    | Finish(outcome: Outcome)
    | CallbackDel
    | CallbackPost
    | CallbackPanic
    | CallbackReturn
    | Recover
    | CancelOwn

  datatype Step =
    | Register(handler: string)
    | RunBegin(req: Req)
    | RunCheck
    | CoverGet
    | CoverDel
    | FetchTask
    | Launch
    | KillBegin(jobId: int)
    | KillGet
    | KillDel
    | Of(r: nat, a: Action)

  const INIT := Sys(View([], map[], map[], 0, {}), Idle, [], [], 0)

  predicate MayAct(run: Run, a: Action) {
    match a
    case Guard => run.pc.Waiting?
    case Enter => run.pc.Guarded?
    case Finish(_) => run.pc.Working?
    case CallbackDel => run.pc.Calling?
    case CallbackPost => run.pc.Unlisted?
    case CallbackPanic => (run.pc.Unlisted? || run.pc.Posted?) && !run.recovering
    case CallbackReturn => run.pc.Posted?
    case Recover => run.pc.Deferring?
    case CancelOwn => run.pc.Cancelling?
  }

  /** The code `Task.Run` reports for an outcome. */
  function CodeFor(outcome: Outcome): int {
    if outcome.ReturnsNil? then 200 else 500
  }

  /**
   `Task.Run`: the callback for a result and for an error, and the deferred handler, entered on
   every exit, which calls back and cancels only if there is a panic to recover from.
   */
  function Act(run: Run, rec: Rec, a: Action): Run
    requires MayAct(run, a)
  {
    match a
    case Guard => run.(pc := Guarded, guard := rec.cancel)
    case Enter => run.(pc := Working, ctx := rec.cancel)
    case Finish(outcome) =>
      var run := run.(outcome := Some(outcome));
      (match outcome
       case ReturnsErr => run.(pc := Calling(500))
       case ReturnsNil => run.(pc := Calling(200))
       case TaskPanics => run.(pc := Deferring, panicking := true))
    case CallbackDel => run.(pc := Unlisted(run.pc.code), unlisted := true)
    case CallbackPost => run.(pc := Posted)
    case CallbackPanic => run.(pc := Deferring, panicking := true)
    case CallbackReturn => run.(pc := if run.recovering then Cancelling else Deferring)
    case Recover =>
      if run.panicking then run.(pc := Calling(500), panicking := false, recovering := true)
      else run.(pc := Reported)
    case CancelOwn => run.(pc := Reported)
  }

  predicate Enabled(s: Sys, st: Step) {
    match st
    case Register(_) => true
    case RunBegin(_) => s.request.Idle?
    case RunCheck => s.request.RunChecked?
    case CoverGet => s.request.RunCovering?
    case CoverDel => s.request.RunUncovering? && s.request.ref < |s.v.recs|
    case FetchTask => s.request.RunFetching? && s.request.req.handler in s.v.reg
    case Launch => s.request.RunLaunching? && s.request.ref < |s.v.recs|
    case KillBegin(_) => s.request.Idle?
    case KillGet => s.request.KillFetching?
    case KillDel => s.request.KillDeleting?
    case Of(r, a) => r < |s.runs| && MayAct(s.runs[r], a)
  }

  /** Every position in the heap that the state mentions exists. */
  predicate Grounded(s: Sys) {
    && WellFormed(s.v)
    && s.v.launched == |s.runs|
    && (forall r :: 0 <= r < |s.runs| ==>
          s.runs[r].ref < |s.v.recs| && s.v.recs[s.runs[r].ref].param.Some?
          && s.v.recs[s.runs[r].ref].fn == s.runs[r].req.handler)
    && (s.request.RunUncovering? ==> s.request.ref < |s.v.recs|)
    && (s.request.RunLaunching? ==>
          s.request.ref < |s.v.recs| && s.v.recs[s.request.ref].fn == s.request.req.handler)
    && (s.request.RunChecked? || s.request.RunCovering? || s.request.RunUncovering? || s.request.RunFetching? ==>
          s.request.req.handler in s.v.reg)
  }

  /** What an action of goroutine `r` changes besides the goroutine. */
  function DoAct(s: Sys, r: nat, a: Action): Sys
    requires Grounded(s) && r < |s.runs| && MayAct(s.runs[r], a)
  {
    var run := s.runs[r];
    var rec := s.v.recs[run.ref];
    var s := s.(runs := s.runs[r := Act(run, rec, a)]);
    match a
    case CallbackDel => s.(v := Deleted(s.v, Key(rec.id)))
    case CallbackPost => s.(posts := s.posts + [Post(r, rec.param.value.logId, run.pc.code)])
    case CancelOwn =>
      if run.guard.Some? then s.(v := s.v.(cancelled := s.v.cancelled + {run.guard.value})) else s
    case _ => s
  }

  function Apply(s: Sys, st: Step): Sys
    requires Grounded(s) && Enabled(s, st)
  {
    match st
    case Register(h) => s.(v := Registered(s.v, h))
    case RunBegin(req) => if req.handler in s.v.reg then s.(request := RunChecked(req)) else s
    case RunCheck =>
      var req := s.request.req;
      if Key(req.jobId) !in s.v.run then s.(request := RunFetching(req))
      else if req.coverEarly then s.(request := RunCovering(req))
      else s.(request := Idle)
    case CoverGet =>
      var req := s.request.req;
      var k := Key(req.jobId);
      if k in s.v.run then s.(v := Cancelled(s.v, s.v.run[k]), request := RunUncovering(req, s.v.run[k]))
      else s.(request := RunFetching(req))
    case CoverDel =>
      s.(v := Deleted(s.v, Key(s.v.recs[s.request.ref].id)), request := RunFetching(s.request.req))
    case FetchTask =>
      s.(request := RunLaunching(s.request.req, s.v.reg[s.request.req.handler]))
    case Launch =>
      s.(v := Launched(s.v, s.request.ref, s.request.req),
         request := Idle,
         runs := s.runs + [NewRun(s.request.ref, s.request.req)])
    case KillBegin(j) => if Key(j) in s.v.run then s.(request := KillFetching(j)) else s
    case KillGet =>
      // Get may find nothing although Exists did: calling Cancel on nil then panics, and the
      // deferred unlock still runs.
      var k := Key(s.request.jobId);
      if k in s.v.run then s.(v := Cancelled(s.v, s.v.run[k]), request := KillDeleting(s.request.jobId))
      else s.(request := Idle, nilReads := s.nilReads + 1)
    case KillDel => s.(v := Deleted(s.v, Key(s.request.jobId)), request := Idle)
    case Of(r, a) => DoAct(s, r, a)
  }

  lemma ActKeepsRef(run: Run, rec: Rec, a: Action)
    requires MayAct(run, a)
    ensures Act(run, rec, a).ref == run.ref && Act(run, rec, a).req == run.req
    ensures !Act(run, rec, a).unlisted ==> !run.unlisted
  {
  }

  /** What every action leaves alone: the records, the registrations, the request, the other goroutines. */
  lemma ActFrame(s: Sys, r: nat, a: Action)
    requires Grounded(s) && r < |s.runs| && MayAct(s.runs[r], a)
    ensures var s' := DoAct(s, r, a);
      && s'.v.recs == s.v.recs && s'.v.reg == s.v.reg && s'.v.launched == s.v.launched
      && s'.request == s.request && s'.nilReads == s.nilReads
      && s'.runs == s.runs[r := Act(s.runs[r], s.v.recs[s.runs[r].ref], a)]
      && s'.v.run == (if a.CallbackDel? then s.v.run - {Key(s.v.recs[s.runs[r].ref].id)} else s.v.run)
      && (!a.CancelOwn? ==> s'.v.cancelled == s.v.cancelled)
  {
  }

  lemma ActKeepsGrounded(s: Sys, r: nat, a: Action)
    requires Grounded(s) && r < |s.runs| && MayAct(s.runs[r], a)
    ensures Grounded(DoAct(s, r, a))
  {
    ActFrame(s, r, a);
    ActKeepsRef(s.runs[r], s.v.recs[s.runs[r].ref], a);
  }

  lemma LaunchKeepsGrounded(s: Sys)
    requires Grounded(s) && Enabled(s, Launch)
    ensures Grounded(Apply(s, Launch))
  {
  }

  lemma StepKeepsGrounded(s: Sys, st: Step)
    requires Grounded(s) && Enabled(s, st)
    ensures Grounded(Apply(s, st))
  {
    match st
    case Launch => LaunchKeepsGrounded(s);
    case Of(r, a) => ActKeepsGrounded(s, r, a);
    case _ => assert Apply(s, st).runs == s.runs;
  }

  // ---------------------------------------------------------------------------------------
  // Runs and the rules they may keep to
  // ---------------------------------------------------------------------------------------

  /** The goroutine has not yet taken its job off the list. */
  predicate Live(s: Sys, r: nat) {
    r < |s.runs| && !s.runs[r].unlisted
  }

  datatype Rules = Rules(
    oneJob: bool,          // no handler serves two job ids
    noEarlyRestart: bool,  // no job restarts before its cancelled goroutine has called back
    noOverlap: bool,       // no handler is launched before its goroutines have reported
    callbacksReturn: bool, // no callback panics
    quietKill: bool)       // no callback takes a job's key between the two reads of a kill of that job

  const ANY := Rules(false, false, false, false, false)

  predicate Allowed(s: Sys, st: Step, h: Rules, job: string -> int) {
    && (h.oneJob && st.RunBegin? ==> st.req.jobId == job(st.req.handler))
    && (st.Launch? && s.request.RunLaunching? ==>
          && (h.noEarlyRestart ==> NoneCancelledAndLive(s, s.request.req.jobId))
          && (h.noOverlap ==> AllReported(s, s.request.ref)))
    && (h.callbacksReturn && st.Of? ==> !st.a.CallbackPanic?)
    && (h.quietKill && st.Of? && st.a.CallbackDel? ==> LeavesKillAlone(s, st.r))
  }

  predicate LeavesKillAlone(s: Sys, r: nat) {
    s.request.KillFetching? && r < |s.runs| && s.runs[r].ref < |s.v.recs| ==>
      Key(s.v.recs[s.runs[r].ref].id) != Key(s.request.jobId)
  }

  predicate NoneCancelledAndLive(s: Sys, jobId: int) {
    forall r :: 0 <= r < |s.runs| && s.runs[r].req.jobId == jobId && r in s.v.cancelled ==> !Live(s, r)
  }

  predicate AllReported(s: Sys, ref: nat) {
    forall r :: 0 <= r < |s.runs| && s.runs[r].ref == ref ==> s.runs[r].pc.Reported?
  }

  predicate IsRun(s: Sys, steps: seq<Step>, h: Rules, job: string -> int)
    requires Grounded(s)
    decreases |steps|
  {
    steps == [] ||
    (Enabled(s, steps[0]) && Allowed(s, steps[0], h, job) &&
     (StepKeepsGrounded(s, steps[0]); IsRun(Apply(s, steps[0]), steps[1..], h, job)))
  }

  function After(s: Sys, steps: seq<Step>): (s': Sys)
    requires Grounded(s)
    ensures Grounded(s')
    decreases |steps|
  {
    if steps == [] || !Enabled(s, steps[0]) then s
    else
      StepKeepsGrounded(s, steps[0]);
      After(Apply(s, steps[0]), steps[1..])
  }

  // ---------------------------------------------------------------------------------------
  // The run list is exact
  // ---------------------------------------------------------------------------------------

  /** The request under way has cancelled the entry at `k` and is about to delete it. */
  predicate Removing(s: Sys, k: string) {
    match s.request
    case KillDeleting(j) => k == Key(j)
    case RunUncovering(req, _) => k == Key(req.jobId)
    case _ => false
  }

  predicate Active(s: Sys, r: nat) {
    Live(s, r) && r !in s.v.cancelled
  }

  /** The entry at `k` is the record that holds goroutine `r`'s job id and cancel function. */
  predicate EntryFor(s: Sys, k: string, r: nat) {
    && Live(s, r) && k in s.v.run && s.v.run[k] == s.runs[r].ref
    && s.runs[r].ref < |s.v.recs|
    && k == Key(s.runs[r].req.jobId)
    && s.v.recs[s.runs[r].ref].id == s.runs[r].req.jobId
    && s.v.recs[s.runs[r].ref].cancel == Some(r)
  }

  /**
   The keys of the run list are exactly the jobs with an active goroutine, each job has one,
   and each entry is that goroutine's record: it prints as the key and cancels that goroutine.
   The one exception is an entry that the request under way has just cancelled.
   */
  ghost predicate Exact(s: Sys) {
    && (forall r: nat :: Active(s, r) ==> EntryFor(s, Key(s.runs[r].req.jobId), r))
    && (forall k :: k in s.v.run ==> exists r: nat :: EntryFor(s, k, r) && (Active(s, r) || Removing(s, k)))
    && (forall r: nat, q: nat :: Active(s, r) && Active(s, q) && s.runs[r].req.jobId == s.runs[q].req.jobId ==> r == q)
  }

  /** With no request under way there is no exception. */
  lemma ExactWhenIdle(s: Sys)
    requires Exact(s) && s.request.Idle?
    ensures forall k :: k in s.v.run <==> exists r: nat :: Active(s, r) && k == Key(s.runs[r].req.jobId)
  {
  }

  predicate LiveOk(s: Sys, r: nat)
    requires r < |s.runs|
  {
    var run := s.runs[r];
    Live(s, r) ==>
      && run.ref < |s.v.recs|
      && s.v.recs[run.ref].id == run.req.jobId
      && s.v.recs[run.ref].cancel == Some(r)
      && (r !in s.v.cancelled ==>
            && Key(run.req.jobId) in s.v.run && s.v.run[Key(run.req.jobId)] == run.ref
            && !Removing(s, Key(run.req.jobId)))
  }

  ghost predicate EntryOk(s: Sys, k: string)
  {
    k in s.v.run ==> exists r: nat :: EntryFor(s, k, r) && (r !in s.v.cancelled || Removing(s, k))
  }

  predicate OneLivePerJob(s: Sys) {
    forall r, q :: 0 <= r < |s.runs| && 0 <= q < |s.runs| && SameJobLive(s, r, q) ==> r == q
  }

  predicate SameJobLive(s: Sys, r: nat, q: nat) {
    Live(s, r) && Live(s, q) && s.runs[r].req.jobId == s.runs[q].req.jobId
  }

  predicate RequestOk(s: Sys) {
    && (s.request.RunFetching? || s.request.RunLaunching? ==> Key(s.request.req.jobId) !in s.v.run)
    && (s.request.RunUncovering? ==>
          s.request.ref < |s.v.recs| && s.v.recs[s.request.ref].id == s.request.req.jobId)
  }

  predicate InRunRequest(s: Sys) {
    s.request.RunChecked? || s.request.RunCovering? || s.request.RunUncovering?
    || s.request.RunFetching? || s.request.RunLaunching?
  }

  predicate JobsOk(s: Sys, h: Rules, job: string -> int) {
    h.oneJob ==>
      && (forall r :: 0 <= r < |s.runs| ==> s.runs[r].req.jobId == job(s.runs[r].req.handler))
      && (InRunRequest(s) ==> s.request.req.jobId == job(s.request.req.handler))
  }

  predicate ContextOk(s: Sys, r: nat)
    requires r < |s.runs|
  {
    var run := s.runs[r];
    && run.guard == (if run.pc.Waiting? then None else Some(r))
    && run.ctx == (if run.pc.Waiting? || run.pc.Guarded? then None else Some(r))
    && run.unlisted == HasUnlisted(run)
    && (run.panicking ==> run.pc.Deferring?)
  }

  /** Where a goroutine has taken its job off the list, if no callback panics. */
  predicate HasUnlisted(run: Run) {
    match run.pc
    case Waiting => false
    case Guarded => false
    case Working => false
    case Calling(_) => false
    case Deferring => !run.panicking
    case _ => true
  }

  ghost predicate Inv(s: Sys, h: Rules, job: string -> int) {
    && Grounded(s)
    && JobsOk(s, h, job) && RequestOk(s) && OneLivePerJob(s)
    && (forall r :: 0 <= r < |s.runs| ==> LiveOk(s, r) && ContextOk(s, r))
    && (forall k :: EntryOk(s, k))
    && (forall c :: c in s.v.cancelled ==> c < |s.runs|)
  }

  /** The rules under which the run list is exact. */
  predicate Suffices(h: Rules) {
    h.noEarlyRestart && h.callbacksReturn && (h.oneJob || h.noOverlap)
  }

  ghost predicate MayTake(s: Sys, st: Step, h: Rules, job: string -> int) {
    Inv(s, h, job) && Enabled(s, st) && Allowed(s, st, h, job) && Suffices(h)
  }

  /** A launch finds no live goroutine of its job and none on the record it overwrites. */
  lemma LaunchFindsNoneLive(s: Sys, h: Rules, job: string -> int, r: nat)
    requires MayTake(s, Launch, h, job) && Live(s, r)
    ensures s.runs[r].req.jobId != s.request.req.jobId && s.runs[r].ref != s.request.ref
  {
    assert LiveOk(s, r);
  }

  lemma LaunchKeepsLive(s: Sys, h: Rules, job: string -> int, r: nat)
    requires MayTake(s, Launch, h, job) && r <= |s.runs|
    ensures LiveOk(Apply(s, Launch), r) && ContextOk(Apply(s, Launch), r)
  {
    if r < |s.runs| {
      assert LiveOk(s, r) && ContextOk(s, r);
      if Live(s, r) {
        LaunchFindsNoneLive(s, h, job, r);
      }
    }
  }

  lemma ActKeepsContext(s: Sys, q: nat, a: Action, h: Rules, job: string -> int)
    requires MayTake(s, Of(q, a), h, job)
    ensures ContextOk(DoAct(s, q, a), q)
  {
    assert LiveOk(s, q) && ContextOk(s, q);
  }

  /** A callback deletes its own job's key, and no other live goroutine has that job. */
  lemma CallbackKeepsLive(s: Sys, q: nat, h: Rules, job: string -> int, r: nat)
    requires MayTake(s, Of(q, CallbackDel), h, job) && r < |s.runs|
    ensures LiveOk(DoAct(s, q, CallbackDel), r)
  {
    assert LiveOk(s, r) && ContextOk(s, q) && LiveOk(s, q);
    assert r != q ==> !SameJobLive(s, r, q);
    if Key(s.runs[r].req.jobId) == Key(s.runs[q].req.jobId) {
      FormatIntInjective(s.runs[r].req.jobId, s.runs[q].req.jobId);
    }
  }

  lemma ActKeepsLive(s: Sys, q: nat, a: Action, h: Rules, job: string -> int, r: nat)
    requires MayTake(s, Of(q, a), h, job) && r < |s.runs| && !a.CallbackDel?
    ensures LiveOk(DoAct(s, q, a), r)
  {
    assert LiveOk(s, r) && ContextOk(s, q);
  }

  lemma RequestKeepsLive(s: Sys, st: Step, h: Rules, job: string -> int, r: nat)
    requires MayTake(s, st, h, job) && r < |s.runs| && !st.Launch? && !st.Of?
    ensures LiveOk(Apply(s, st), r) && ContextOk(Apply(s, st), r)
  {
    assert LiveOk(s, r) && ContextOk(s, r);
  }

  lemma StepKeepsLive(s: Sys, st: Step, h: Rules, job: string -> int, r: nat)
    requires MayTake(s, st, h, job) && r < |Apply(s, st).runs|
    ensures LiveOk(Apply(s, st), r) && ContextOk(Apply(s, st), r)
  {
    match st
    case Launch => LaunchKeepsLive(s, h, job, r);
    case Of(q, a) =>
      if a.CallbackDel? {
        CallbackKeepsLive(s, q, h, job, r);
      } else {
        ActKeepsLive(s, q, a, h, job, r);
      }
      if r == q {
        ActKeepsContext(s, q, a, h, job);
      } else {
        assert ContextOk(s, r);
      }
    case _ => RequestKeepsLive(s, st, h, job, r);
  }

  lemma LaunchKeepsOneLive(s: Sys, h: Rules, job: string -> int)
    requires MayTake(s, Launch, h, job)
    ensures OneLivePerJob(Apply(s, Launch))
  {
    var s' := Apply(s, Launch);
    forall r: nat, q: nat | r < |s'.runs| && q < |s'.runs| && SameJobLive(s', r, q) ensures r == q {
      if r < |s.runs| && q < |s.runs| {
        assert SameJobLive(s, r, q);
      } else if r < |s.runs| {
        LaunchFindsNoneLive(s, h, job, r);
      } else if q < |s.runs| {
        LaunchFindsNoneLive(s, h, job, q);
      }
    }
  }

  lemma ActKeepsOneLive(s: Sys, q: nat, a: Action)
    requires Grounded(s) && OneLivePerJob(s) && q < |s.runs| && MayAct(s.runs[q], a)
    ensures OneLivePerJob(DoAct(s, q, a))
  {
    ActFrame(s, q, a);
    ActKeepsRef(s.runs[q], s.v.recs[s.runs[q].ref], a);
    var s' := DoAct(s, q, a);
    forall r: nat, p: nat | r < |s'.runs| && p < |s'.runs| && SameJobLive(s', r, p) ensures r == p {
      assert SameJobLive(s, r, p);
    }
  }

  lemma StepKeepsOneLive(s: Sys, st: Step, h: Rules, job: string -> int)
    requires MayTake(s, st, h, job)
    ensures OneLivePerJob(Apply(s, st))
  {
    match st
    case Launch => LaunchKeepsOneLive(s, h, job);
    case Of(q, a) => ActKeepsOneLive(s, q, a);
    case _ =>
      var s' := Apply(s, st);
      assert s'.runs == s.runs;
      assert forall r: nat, q: nat :: SameJobLive(s', r, q) ==> SameJobLive(s, r, q);
  }

  lemma LaunchKeepsEntry(s: Sys, h: Rules, job: string -> int, k: string)
    requires MayTake(s, Launch, h, job)
    ensures EntryOk(Apply(s, Launch), k)
  {
    var s' := Apply(s, Launch);
    if k == Key(s.request.req.jobId) {
      assert EntryFor(s', k, |s.runs|);
    } else if k in s'.v.run {
      assert EntryOk(s, k);
      var r: nat :| EntryFor(s, k, r) && (r !in s.v.cancelled || Removing(s, k));
      LaunchFindsNoneLive(s, h, job, r);
      assert EntryFor(s', k, r);
    }
  }

  /** Cancelling the entry at `mine`, which the request then goes on to remove, leaves every other one alone. */
  lemma CancelledEntry(s: Sys, request: Request, h: Rules, job: string -> int, mine: string, k: string)
    requires Inv(s, h, job) && mine in s.v.run && !Removing(s, k) && !Removing(s, mine)
    requires Removing(s.(request := request), mine)
    ensures EntryOk(s.(v := Cancelled(s.v, s.v.run[mine]), request := request), k)
  {
    var s' := s.(v := Cancelled(s.v, s.v.run[mine]), request := request);
    if k in s.v.run {
      assert EntryOk(s, k) && EntryOk(s, mine);
      var r: nat :| EntryFor(s, k, r) && r !in s.v.cancelled;
      var q: nat :| EntryFor(s, mine, q) && q !in s.v.cancelled;
      assert s'.v.cancelled == s.v.cancelled + {q};
      assert EntryFor(s', k, r);
    }
  }

  lemma CancelKeepsEntry(s: Sys, st: Step, h: Rules, job: string -> int, mine: string, k: string)
    requires MayTake(s, st, h, job) && (st.KillGet? || st.CoverGet?)
    requires mine == (if st.KillGet? then Key(s.request.jobId) else Key(s.request.req.jobId))
    ensures EntryOk(Apply(s, st), k)
  {
    if mine in s.v.run {
      CancelledEntry(s, Apply(s, st).request, h, job, mine, k);
    } else if k in s.v.run {
      assert EntryOk(s, k);
      var r: nat :| EntryFor(s, k, r) && r !in s.v.cancelled;
      assert EntryFor(Apply(s, st), k, r);
    }
  }

  lemma CallbackKeepsEntry(s: Sys, q: nat, h: Rules, job: string -> int, k: string)
    requires MayTake(s, Of(q, CallbackDel), h, job)
    ensures EntryOk(DoAct(s, q, CallbackDel), k)
  {
    var s' := DoAct(s, q, CallbackDel);
    if k in s'.v.run {
      assert EntryOk(s, k) && LiveOk(s, q) && ContextOk(s, q);
      var r: nat :| EntryFor(s, k, r) && (r !in s.v.cancelled || Removing(s, k));
      assert r != q;
      assert EntryFor(s', k, r);
    }
  }

  lemma ActKeepsEntry(s: Sys, q: nat, a: Action, h: Rules, job: string -> int, k: string)
    requires MayTake(s, Of(q, a), h, job) && !a.CallbackDel?
    ensures EntryOk(DoAct(s, q, a), k)
  {
    var s' := DoAct(s, q, a);
    if k in s'.v.run {
      assert EntryOk(s, k) && ContextOk(s, q);
      var r: nat :| EntryFor(s, k, r) && (r !in s.v.cancelled || Removing(s, k));
      assert EntryFor(s', k, r);
    }
  }

  lemma RequestKeepsEntry(s: Sys, st: Step, h: Rules, job: string -> int, k: string)
    requires MayTake(s, st, h, job) && !st.Launch? && !st.Of? && !st.KillGet? && !st.CoverGet?
    ensures EntryOk(Apply(s, st), k)
  {
    var s' := Apply(s, st);
    if k in s'.v.run {
      assert EntryOk(s, k);
      var r: nat :| EntryFor(s, k, r) && (r !in s.v.cancelled || Removing(s, k));
      assert LiveOk(s, r);
      assert EntryFor(s', k, r);
    }
  }

  lemma StepKeepsEntry(s: Sys, st: Step, h: Rules, job: string -> int, k: string)
    requires MayTake(s, st, h, job)
    ensures EntryOk(Apply(s, st), k)
  {
    match st
    case Launch => LaunchKeepsEntry(s, h, job, k);
    case KillGet => CancelKeepsEntry(s, st, h, job, Key(s.request.jobId), k);
    case CoverGet => CancelKeepsEntry(s, st, h, job, Key(s.request.req.jobId), k);
    case Of(q, a) =>
      if a.CallbackDel? {
        CallbackKeepsEntry(s, q, h, job, k);
      } else {
        ActKeepsEntry(s, q, a, h, job, k);
      }
    case _ => RequestKeepsEntry(s, st, h, job, k);
  }

  ghost predicate RequestKept(s: Sys, h: Rules, job: string -> int) {
    JobsOk(s, h, job) && RequestOk(s) && forall c :: c in s.v.cancelled ==> c < |s.runs|
  }

  lemma ActKeepsRequest(s: Sys, q: nat, a: Action, h: Rules, job: string -> int)
    requires MayTake(s, Of(q, a), h, job)
    ensures RequestKept(DoAct(s, q, a), h, job)
  {
    ActFrame(s, q, a);
    ActKeepsRef(s.runs[q], s.v.recs[s.runs[q].ref], a);
    assert ContextOk(s, q);
  }

  lemma CoverGetKeepsRequest(s: Sys, h: Rules, job: string -> int)
    requires MayTake(s, CoverGet, h, job)
    ensures RequestKept(Apply(s, CoverGet), h, job)
  {
    assert EntryOk(s, Key(s.request.req.jobId));
    if Apply(s, CoverGet).request.RunUncovering? {
      var r: nat :| EntryFor(s, Key(s.request.req.jobId), r);
      FormatIntInjective(s.runs[r].req.jobId, s.request.req.jobId);
    }
  }

  lemma StepKeepsRequest(s: Sys, st: Step, h: Rules, job: string -> int)
    requires MayTake(s, st, h, job)
    ensures RequestKept(Apply(s, st), h, job)
  {
    match st
    case CoverGet => CoverGetKeepsRequest(s, h, job);
    case Of(q, a) => ActKeepsRequest(s, q, a, h, job);
    case KillGet => assert EntryOk(s, Key(s.request.jobId));
    case _ =>
  }

  lemma StepKeepsInv(s: Sys, st: Step, h: Rules, job: string -> int)
    requires MayTake(s, st, h, job)
    ensures Inv(Apply(s, st), h, job)
  {
    var s' := Apply(s, st);
    StepKeepsGrounded(s, st);
    StepKeepsOneLive(s, st, h, job);
    forall r | 0 <= r < |s'.runs| ensures LiveOk(s', r) && ContextOk(s', r) {
      StepKeepsLive(s, st, h, job, r);
    }
    forall k ensures EntryOk(s', k) {
      StepKeepsEntry(s, st, h, job, k);
    }
    StepKeepsRequest(s, st, h, job);
  }

  lemma {:induction false} RunKeepsInv(s: Sys, steps: seq<Step>, h: Rules, job: string -> int)
    requires Inv(s, h, job) && IsRun(s, steps, h, job) && Suffices(h)
    ensures Inv(After(s, steps), h, job)
    decreases |steps|
  {
    if steps != [] {
      StepKeepsInv(s, steps[0], h, job);
      RunKeepsInv(Apply(s, steps[0]), steps[1..], h, job);
    }
  }

  lemma InvIsExact(s: Sys, h: Rules, job: string -> int)
    requires Inv(s, h, job)
    ensures Exact(s)
  {
    forall r: nat | Active(s, r) ensures EntryFor(s, Key(s.runs[r].req.jobId), r) {
      assert LiveOk(s, r);
    }
    forall k | k in s.v.run ensures exists r: nat :: EntryFor(s, k, r) && (Active(s, r) || Removing(s, k)) {
      assert EntryOk(s, k);
      var r: nat :| EntryFor(s, k, r) && (r !in s.v.cancelled || Removing(s, k));
    }
    forall r: nat, q: nat | Active(s, r) && Active(s, q) && s.runs[r].req.jobId == s.runs[q].req.jobId
      ensures r == q
    {
      assert SameJobLive(s, r, q);
    }
  }

  /** A goroutine reads cancel function and context from the shared record only once it runs, and gets its own. */
  lemma WorksUnderItsOwnContext(steps: seq<Step>, h: Rules, job: string -> int, r: nat)
    requires IsRun(INIT, steps, h, job) && Suffices(h)
    requires r < |After(INIT, steps).runs| && !After(INIT, steps).runs[r].pc.Waiting?
    ensures var run := After(INIT, steps).runs[r];
      run.guard == Some(r) && (!run.pc.Guarded? ==> run.ctx == Some(r))
  {
    RunKeepsInv(INIT, steps, h, job);
    assert ContextOk(After(INIT, steps), r);
  }

  lemma RunListExact(steps: seq<Step>, h: Rules, job: string -> int)
    requires IsRun(INIT, steps, h, job) && Suffices(h)
    ensures Exact(After(INIT, steps))
  {
    RunKeepsInv(INIT, steps, h, job);
    InvIsExact(After(INIT, steps), h, job);
  }

  /**
   A kill that finds the entry cancels the one goroutine of that job and no other; if a
   callback has taken the entry since Exists, the job has none left and the read is of nil.
   */
  lemma KillCancelsItsJob(steps: seq<Step>, h: Rules, job: string -> int)
    requires IsRun(INIT, steps, h, job) && Suffices(h) && Enabled(After(INIT, steps), KillGet)
    ensures var s := After(INIT, steps);
      var s' := Apply(s, KillGet);
      if s'.nilReads == s.nilReads then
        exists r: nat :: Active(s, r) && s.runs[r].req.jobId == s.request.jobId
          && s'.v.cancelled == s.v.cancelled + {r}
      else
        forall r: nat :: Active(s, r) ==> s.runs[r].req.jobId != s.request.jobId
  {
    RunKeepsInv(INIT, steps, h, job);
    var s := After(INIT, steps);
    var k := Key(s.request.jobId);
    assert EntryOk(s, k);
    if k in s.v.run {
      var r: nat :| EntryFor(s, k, r) && (r !in s.v.cancelled || Removing(s, k));
      FormatIntInjective(s.runs[r].req.jobId, s.request.jobId);
      assert Active(s, r);
    } else {
      forall r: nat | Active(s, r) ensures s.runs[r].req.jobId != s.request.jobId {
        assert LiveOk(s, r);
      }
    }
  }

  // ---------------------------------------------------------------------------------------
  // The rules are needed
  // ---------------------------------------------------------------------------------------

  ghost predicate Reaches(s: Sys, h: Rules, job: string -> int) {
    exists steps :: IsRun(INIT, steps, h, job) && After(INIT, steps) == s
  }

  lemma {:induction false} Extend(s: Sys, steps: seq<Step>, st: Step, h: Rules, job: string -> int)
    requires Grounded(s) && IsRun(s, steps, h, job)
    requires Enabled(After(s, steps), st) && Allowed(After(s, steps), st, h, job)
    ensures IsRun(s, steps + [st], h, job)
    ensures After(s, steps + [st]) == Apply(After(s, steps), st)
    decreases |steps|
  {
    if steps == [] {
      StepKeepsGrounded(s, st);
      assert IsRun(Apply(s, st), [], h, job);
    } else {
      assert (steps + [st])[1..] == steps[1..] + [st];
      StepKeepsGrounded(s, steps[0]);
      Extend(Apply(s, steps[0]), steps[1..], st, h, job);
    }
  }

  /** Takes one more step of a run that is being written down. */
  lemma Go(s: Sys, st: Step, h: Rules, job: string -> int) returns (s': Sys)
    requires Reaches(s, h, job) && Enabled(s, st)
    requires Allowed(s, st, h, job)
    ensures Grounded(s) && s' == Apply(s, st) && Reaches(s', h, job)
  {
    var steps :| IsRun(INIT, steps, h, job) && After(INIT, steps) == s;
    Extend(INIT, steps, st, h, job);
    s' := Apply(s, st);
  }

  /** A run request for a registered, unlisted job that nothing interrupts. */
  lemma LaunchThrough(s: Sys, req: Req, h: Rules, job: string -> int) returns (s': Sys)
    requires Reaches(s, h, job) && s.request.Idle?
    requires req.handler in s.v.reg && Key(req.jobId) !in s.v.run
    requires h.oneJob ==> req.jobId == job(req.handler)
    requires h.noEarlyRestart ==> NoneCancelledAndLive(s, req.jobId)
    requires h.noOverlap ==> AllReported(s, s.v.reg[req.handler])
    ensures Grounded(s) && Reaches(s', h, job)
    ensures s' == s.(v := Launched(s.v, s.v.reg[req.handler], req),
                     runs := s.runs + [NewRun(s.v.reg[req.handler], req)])
  {
    s' := Go(s, RunBegin(req), h, job);
    s' := Go(s', RunCheck, h, job);
    s' := Go(s', FetchTask, h, job);
    s' := Go(s', Launch, h, job);
  }

  /** A COVER_EARLY request for a listed job that nothing interrupts. */
  lemma CoverThrough(s: Sys, req: Req, h: Rules, job: string -> int) returns (s': Sys)
    requires Reaches(s, h, job) && s.request.Idle? && req.coverEarly
    requires req.handler in s.v.reg && Key(req.jobId) in s.v.run
    requires h.oneJob ==> req.jobId == job(req.handler)
    requires !h.noEarlyRestart && (h.noOverlap ==> AllReported(s, s.v.reg[req.handler]))
    ensures Grounded(s) && Reaches(s', h, job)
    ensures s' == s.(v := Launched(Covered(s.v, req.jobId), s.v.reg[req.handler], req),
                     runs := s.runs + [NewRun(s.v.reg[req.handler], req)])
  {
    s' := Go(s, RunBegin(req), h, job);
    s' := Go(s', RunCheck, h, job);
    s' := Go(s', CoverGet, h, job);
    s' := Go(s', CoverDel, h, job);
    s' := Go(s', FetchTask, h, job);
    s' := Go(s', Launch, h, job);
  }

  /** The goroutine whose task returned nil, after its key is off the list. */
  function Returned(run: Run, cancel: Option<nat>): Run {
    run.(pc := Unlisted(200), guard := cancel, ctx := cancel, outcome := Some(ReturnsNil), unlisted := true)
  }

  /** The goroutine runs to its end and takes its key off the list. */
  lemma ReturnThrough(s: Sys, r: nat, h: Rules, job: string -> int) returns (s': Sys)
    requires Reaches(s, h, job) && r < |s.runs| && s.runs[r].pc.Waiting?
    requires h.quietKill ==> !s.request.KillFetching?
    ensures Grounded(s) && Reaches(s', h, job)
    ensures s' == s.(v := Deleted(s.v, Key(s.v.recs[s.runs[r].ref].id)),
                     runs := s.runs[r := Returned(s.runs[r], s.v.recs[s.runs[r].ref].cancel)])
  {
    s' := Go(s, Of(r, Guard), h, job);
    s' := Go(s', Of(r, Enter), h, job);
    s' := Go(s', Of(r, Finish(ReturnsNil)), h, job);
    s' := Go(s', Of(r, CallbackDel), h, job);
    assert s'.runs == s.runs[r := s'.runs[r]];
  }

  lemma Begin(h: Rules, job: string -> int, handler: string) returns (s: Sys)
    ensures Reaches(s, h, job)
    ensures s == INIT.(v := View([Rec(handler, 0, None, None)], map[handler := 0], map[], 0, {}))
  {
    assert IsRun(INIT, [], h, job) && After(INIT, []) == INIT;
    s := Go(INIT, Register(handler), h, job);
  }

  /** One handler, two jobs: the first job's callback deletes the second job's key. */
  lemma TwoJobsOnOneHandler(h: Rules, job: string -> int) returns (s: Sys)
    requires h == Rules(false, true, false, true, true)
    ensures Reaches(s, h, job) && !Exact(s)
  {
    s := Begin(h, job, "h");
    s := LaunchThrough(s, Req(1, "h", false, 1), h, job);
    FormatIntDistinct(1, 2);
    s := LaunchThrough(s, Req(2, "h", false, 2), h, job);
    s := ReturnThrough(s, 0, h, job);
    assert Active(s, 1) && Key(2) !in s.v.run;
  }

  lemma FormatIntDistinct(i: int, j: int)
    requires i != j
    ensures Key(i) != Key(j)
  {
    if Key(i) == Key(j) {
      FormatIntInjective(i, j);
    }
  }

  /** The handler's job is launched; with `again` the handler is then registered anew. */
  lemma FirstLaunch(h: Rules, job: string -> int, again: bool) returns (s: Sys)
    requires h == Rules(true, false, again, true, true)
    ensures Reaches(s, h, job) && s.request.Idle? && s.v.cancelled == {} && s.v.launched == 1
    ensures s.v.run == map[Key(job("h")) := 0] && "h" in s.v.reg && s.v.reg["h"] == (if again then 1 else 0)
    ensures |s.v.recs| == s.v.reg["h"] + 1 && s.v.recs[0] == Rec("h", job("h"), s.v.recs[0].param, Some(0))
    ensures s.runs == [NewRun(0, Req(job("h"), "h", false, 1))]
  {
    s := Begin(h, job, "h");
    s := LaunchThrough(s, Req(job("h"), "h", false, 1), h, job);
    if again {
      s := Go(s, Register("h"), h, job);
    }
  }

  /**
   COVER_EARLY: the covered goroutine's late callback deletes its successor's entry, so the
   successor works on while the executor believes its job is idle. With `again` the handler is
   registered anew in between, so not even the record is shared.
   */
  lemma CoveredRunUnlistsItsSuccessor(h: Rules, job: string -> int, again: bool) returns (s: Sys)
    requires h == Rules(true, false, again, true, true)
    ensures Reaches(s, h, job) && !Exact(s)
    ensures s.request.Idle? && s.v.cancelled == {0} && s.v.run == map[] && Active(s, 1)
  {
    var j := job("h");
    s := FirstLaunch(h, job, again);
    s := CoverThrough(s, Req(j, "h", true, 2), h, job);
    s := ReturnThrough(s, 0, h, job);
    assert Active(s, 1) && Key(j) !in s.v.run;
  }

  /** A goroutine has taken its job off the list; the handler is registered anew and the job launched again. */
  lemma SuccessorOnAnotherRecord(h: Rules, job: string -> int) returns (s: Sys)
    requires h == Rules(true, true, true, false, true)
    ensures Reaches(s, h, job) && Grounded(s) && s.request.Idle? && s.v.cancelled == {}
    ensures |s.v.recs| == 2 && s.v.recs[0].id == job("h") && s.v.recs[0].cancel == Some(0)
    ensures s.runs == [Returned(NewRun(0, Req(job("h"), "h", false, 1)), Some(0)),
                       NewRun(1, Req(job("h"), "h", false, 2))]
  {
    var j := job("h");
    s := Begin(h, job, "h");
    s := LaunchThrough(s, Req(j, "h", false, 1), h, job);
    s := ReturnThrough(s, 0, h, job);
    s := Go(s, Register("h"), h, job);
    s := LaunchThrough(s, Req(j, "h", false, 2), h, job);
    StepKeepsGrounded(s, Register("h"));
  }

  /**
   A callback that panics after its delete is entered again by the deferred handler, and then
   deletes the key of a successor on another record.
   */
  lemma PanickedCallbackUnlistsItsSuccessor(h: Rules, job: string -> int) returns (s: Sys)
    requires h == Rules(true, true, true, false, true)
    ensures Reaches(s, h, job) && !Exact(s)
  {
    s := SuccessorOnAnotherRecord(h, job);
    s := Go(s, Of(0, CallbackPanic), h, job);
    s := Go(s, Of(0, Recover), h, job);
    s := Go(s, Of(0, CallbackDel), h, job);
    assert Active(s, 1) && Key(job("h")) !in s.v.run;
  }

  ghost predicate AlwaysExact(h: Rules, job: string -> int) {
    forall steps :: IsRun(INIT, steps, h, job) ==> Exact(After(INIT, steps))
  }

  predicate Weaker(h: Rules, strict: Rules) {
    && (h.oneJob ==> strict.oneJob)
    && (h.noEarlyRestart ==> strict.noEarlyRestart)
    && (h.noOverlap ==> strict.noOverlap)
    && (h.callbacksReturn ==> strict.callbacksReturn)
    && (h.quietKill ==> strict.quietKill)
  }

  lemma {:induction false} RulesRelax(s: Sys, steps: seq<Step>, strict: Rules, h: Rules, job: string -> int)
    requires Grounded(s) && IsRun(s, steps, strict, job) && Weaker(h, strict)
    ensures IsRun(s, steps, h, job)
    decreases |steps|
  {
    if steps != [] {
      StepKeepsGrounded(s, steps[0]);
      RulesRelax(Apply(s, steps[0]), steps[1..], strict, h, job);
    }
  }

  lemma Breaks(s: Sys, strict: Rules, h: Rules, job: string -> int)
    requires Reaches(s, strict, job) && !Exact(s) && Weaker(h, strict)
    ensures !AlwaysExact(h, job)
  {
    var steps :| IsRun(INIT, steps, strict, job) && After(INIT, steps) == s;
    RulesRelax(INIT, steps, strict, h, job);
  }

  /**
   The run list is exact in every interleaving if and only if no job restarts before its
   cancelled goroutine has called back, no callback panics, and either no handler serves two
   jobs or no handler is launched while a goroutine on its record is unreported.
   */
  lemma ExactExactlyUnderTheRules(h: Rules, job: string -> int)
    ensures AlwaysExact(h, job) <==> h.noEarlyRestart && h.callbacksReturn && (h.oneJob || h.noOverlap)
  {
    if Suffices(h) {
      forall steps | IsRun(INIT, steps, h, job) ensures Exact(After(INIT, steps)) {
        RunListExact(steps, h, job);
      }
    } else if !h.noEarlyRestart {
      var strict := Rules(true, false, true, true, true);
      var s := CoveredRunUnlistsItsSuccessor(strict, job, true);
      Breaks(s, strict, h, job);
    } else if !h.callbacksReturn {
      var strict := Rules(true, true, true, false, true);
      var s := PanickedCallbackUnlistsItsSuccessor(strict, job);
      Breaks(s, strict, h, job);
    } else {
      var strict := Rules(false, true, false, true, true);
      var s := TwoJobsOnOneHandler(strict, job);
      Breaks(s, strict, h, job);
    }
  }

  // ---------------------------------------------------------------------------------------
  // Kill reads what Exists saw, if no callback comes in between
  // ---------------------------------------------------------------------------------------

  /** `killTask` can read nil between Exists and Get: a callback takes the key. */
  lemma KillReadsNil(h: Rules, job: string -> int) returns (s: Sys)
    requires !h.quietKill
    ensures Reaches(s, h, job) && s.nilReads == 1
  {
    var j := job("h");
    s := Begin(h, job, "h");
    s := LaunchThrough(s, Req(j, "h", false, 1), h, job);
    s := Go(s, KillBegin(j), h, job);
    s := ReturnThrough(s, 0, h, job);
    s := Go(s, KillGet, h, job);
  }

  predicate KillSeesEntry(s: Sys) {
    s.nilReads == 0 && (s.request.KillFetching? ==> Key(s.request.jobId) in s.v.run)
  }

  lemma StepKeepsKillSeesEntry(s: Sys, st: Step, h: Rules, job: string -> int)
    requires Grounded(s) && Enabled(s, st) && Allowed(s, st, h, job) && h.quietKill && KillSeesEntry(s)
    ensures KillSeesEntry(Apply(s, st))
  {
  }

  lemma {:induction false} RunKeepsKillSeesEntry(s: Sys, steps: seq<Step>, h: Rules, job: string -> int)
    requires Grounded(s) && IsRun(s, steps, h, job) && h.quietKill && KillSeesEntry(s)
    ensures KillSeesEntry(After(s, steps))
    decreases |steps|
  {
    if steps != [] {
      StepKeepsGrounded(s, steps[0]);
      StepKeepsKillSeesEntry(s, steps[0], h, job);
      RunKeepsKillSeesEntry(Apply(s, steps[0]), steps[1..], h, job);
    }
  }

  ghost predicate NeverReadsNil(h: Rules, job: string -> int) {
    forall steps :: IsRun(INIT, steps, h, job) ==> After(INIT, steps).nilReads == 0
  }

  /** No kill reads nil, in every run, if and only if no callback takes the job's key between its two reads. */
  lemma NilReadExactlyByCallbacks(h: Rules, job: string -> int)
    ensures NeverReadsNil(h, job) <==> h.quietKill
  {
    if h.quietKill {
      forall steps | IsRun(INIT, steps, h, job) ensures After(INIT, steps).nilReads == 0 {
        RunKeepsKillSeesEntry(INIT, steps, h, job);
      }
    } else {
      var s := KillReadsNil(h, job);
    }
  }

  // ---------------------------------------------------------------------------------------
  // Left alone, the steps of a request do what the method does
  // ---------------------------------------------------------------------------------------

  lemma RunTaskInSteps(s: Sys, req: Req, job: string -> int) returns (s': Sys)
    requires Reaches(s, ANY, job) && s.request.Idle?
    ensures Grounded(s) && Reaches(s', ANY, job)
    ensures s'.request.Idle? && s'.v == RunTaskSpec(s.v, req).0
    ensures |s'.runs| == |s.runs| + if RunTaskSpec(s.v, req).1.Accepted? then 1 else 0
  {
    var h := ANY;
    if req.handler in s.v.reg && Key(req.jobId) !in s.v.run {
      s' := LaunchThrough(s, req, h, job);
    } else if req.handler in s.v.reg && req.coverEarly {
      s' := CoverThrough(s, req, h, job);
    } else {
      s' := Go(s, RunBegin(req), h, job);
      if req.handler in s.v.reg {
        s' := Go(s', RunCheck, h, job);
      }
    }
  }

  lemma KillTaskInSteps(s: Sys, jobId: int, job: string -> int) returns (s': Sys)
    requires Reaches(s, ANY, job) && s.request.Idle?
    ensures Grounded(s) && Reaches(s', ANY, job)
    ensures s'.request.Idle? && s'.v == KillTaskSpec(s.v, jobId).0 && s'.nilReads == s.nilReads
  {
    var h := ANY;
    s' := Go(s, KillBegin(jobId), h, job);
    if Key(jobId) in s.v.run {
      s' := Go(s', KillGet, h, job);
      s' := Go(s', KillDel, h, job);
    }
  }
}

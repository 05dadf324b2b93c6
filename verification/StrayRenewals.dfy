/** What the renewers of a lock object still do after its Unlock has returned (redis/redis.go). */
module StrayRenewals {
  import opened Common
  import opened RedisLock
  import opened LockProtocol

  /** No call through `o` is under way and its flag is down. */
  ghost predicate Quiet(s: Sys, o: LockId) {
    !Obj(s, o).flag && forall t :: !CallAt(s, t, o)
  }

  predicate NoCalls(steps: seq<Step>, o: LockId) {
    forall i :: 0 <= i < |steps| && steps[i].Begin? ==> steps[i].o != o
  }

  predicate AboutToRenew(s: Sys, r: nat) {
    r < |s.renewers| && s.renewers[r].pc.Renewing?
  }

  /** Renewer `r` calls Acquire, whether or not the call comes back with an error. */
  predicate CallsAcquire(st: Step, r: nat) {
    st.Renewal? && st.r == r && (st.w.Renew? || st.w.RenewErrs?)
  }

  function AcquiresBy(steps: seq<Step>, r: nat): nat {
    if steps == [] then 0 else One(CallsAcquire(steps[0], r)) + AcquiresBy(steps[1..], r)
  }

  /** A renewer of `o` runs the Acquire script, whether or not its reply arrives. */
  predicate RunsAcquire(s: Sys, st: Step, o: LockId) {
    && st.Renewal? && st.r < |s.renewers| && s.renewers[st.r].obj == o
    && (st.w.Renew? || (st.w.RenewErrs? && st.w.acquired))
  }

  /** The last time in the run at which a renewer of `o` runs the script. */
  function LastRenewal(s: Sys, steps: seq<Step>, o: LockId): Option<nat>
    decreases |steps|
  {
    if steps == [] || !Enabled(s, steps[0]) then None
    else
      var later := LastRenewal(Apply(s, steps[0]), steps[1..], o);
      if later.Some? then later else if RunsAcquire(s, steps[0], o) then Some(s.now) else None
  }

  function LeaseMs(s: Sys, o: LockId): nat {
    Obj(s, o).seconds * MILLIS
  }

  /** An Unlock that succeeds, and is the only call through its object, leaves it quiet. */
  lemma UnlockQuiets(s: Sys, t: nat)
    requires Enabled(s, By(t, ClearFlag))
    requires forall u :: CallAt(s, u, s.calls[t].obj) ==> u == t
    ensures Quiet(Apply(s, By(t, ClearFlag)), s.calls[t].obj)
  {
    var o := s.calls[t].obj;
    forall u ensures !CallAt(Apply(s, By(t, ClearFlag)), u, o) {
      assert CallAt(s, u, o) ==> u == t;
    }
  }

  /** A step leaves a quiet object quiet, and its renewers on the way out. */
  ghost predicate StaysQuiet(s: Sys, st: Step, o: LockId)
    requires Enabled(s, st)
  {
    var s' := Apply(s, st);
    && Quiet(s', o) && LeaseMs(s', o) == LeaseMs(s, o) && |s.renewers| <= |s'.renewers|
    && (forall r: nat :: AboutToRenew(s', r) && s'.renewers[r].obj == o ==> AboutToRenew(s, r))
    && (forall r: nat :: r < |s.renewers| ==> s'.renewers[r].obj == s.renewers[r].obj)
    && (!RunsAcquire(s, st, o) ==> s'.entry == s.entry || s'.entry.Free? || s'.entry.owner != o)
  }

  lemma QuietAct(s: Sys, t: nat, a: CallAct, o: LockId)
    requires Quiet(s, o) && Enabled(s, By(t, a))
    ensures StaysQuiet(s, By(t, a), o)
  {
    ActFrame(s, t, a);
    assert !CallAt(s, t, o);
    forall u ensures !CallAt(DoAct(s, t, a), u, o) {
      assert !CallAt(s, u, o);
    }
  }

  lemma QuietRenewal(s: Sys, r: nat, w: RenewAct, o: LockId)
    requires Quiet(s, o) && Enabled(s, Renewal(r, w))
    ensures StaysQuiet(s, Renewal(r, w), o)
  {
    RenewalFrame(s, r, w);
    assert Obj(DoRenewal(s, r, w), o) == Obj(s, o);
    forall u ensures !CallAt(DoRenewal(s, r, w), u, o) {
      assert !CallAt(s, u, o);
    }
  }

  lemma QuietStep(s: Sys, st: Step, o: LockId)
    requires Quiet(s, o) && Enabled(s, st) && (st.Begin? ==> st.o != o)
    ensures StaysQuiet(s, st, o)
  {
    match st
    case By(t, a) => QuietAct(s, t, a, o);
    case Renewal(r, w) => QuietRenewal(s, r, w, o);
    case _ =>
      forall u ensures !CallAt(Apply(s, st), u, o) {
        assert !CallAt(s, u, o);
      }
  }

  lemma NoCallsLater(steps: seq<Step>, o: LockId)
    requires NoCalls(steps, o) && steps != []
    ensures NoCalls(steps[1..], o)
  {
    assert forall i :: 0 <= i < |steps[1..]| ==> steps[1..][i] == steps[i + 1];
  }

  /** After Unlock, only a renewer that had already read the flag as up calls Acquire again, and only once. */
  lemma {:induction false} AtMostOneMoreRenewal(s: Sys, steps: seq<Step>, o: LockId, r: nat)
    requires Quiet(s, o) && Run(s, steps, ANY) && NoCalls(steps, o)
    requires r < |s.renewers| && s.renewers[r].obj == o
    ensures AcquiresBy(steps, r) <= One(AboutToRenew(s, r))
    decreases |steps|
  {
    if steps != [] {
      QuietStep(s, steps[0], o);
      NoCallsLater(steps, o);
      var s' := Apply(s, steps[0]);
      AtMostOneMoreRenewal(s', steps[1..], o, r);
      if CallsAcquire(steps[0], r) {
        RenewalFrame(s, r, steps[0].w);
        assert !AboutToRenew(s', r);
      }
    }
  }

  // ---------------------------------------------------------------------------------------
  // And then it exits
  // ---------------------------------------------------------------------------------------

  predicate Exits(s: Sys, r: nat) {
    r < |s.renewers| && s.renewers[r].pc.Exited?
  }

  /** Its next look at the flag is its last. */
  lemma NextCheckExits(s: Sys, o: LockId, r: nat)
    requires Quiet(s, o) && Enabled(s, Renewal(r, Check)) && s.renewers[r].obj == o
    ensures Exits(Apply(s, Renewal(r, Check)), r)
  {
  }

  lemma ExitedStaysOneStep(s: Sys, st: Step, r: nat)
    requires Exits(s, r) && Enabled(s, st)
    ensures Exits(Apply(s, st), r)
  {
    match st
    case By(t, a) => ActFrame(s, t, a);
    case Renewal(q, w) => RenewalFrame(s, q, w);
    case _ =>
  }

  lemma {:induction false} ExitedStays(s: Sys, steps: seq<Step>, r: nat)
    requires Exits(s, r)
    ensures Exits(After(s, steps), r)
    decreases |steps|
  {
    if steps != [] && Enabled(s, steps[0]) {
      ExitedStaysOneStep(s, steps[0], r);
      ExitedStays(Apply(s, steps[0]), steps[1..], r);
    }
  }

  /**
   Stray renewals are bounded: after Unlock, with no further call through the object, each of
   its renewers calls Acquire at most once more, errors counted, and has exited for good once it
   has looked at the flag again.
   */
  lemma {:induction false} RenewerEnds(s: Sys, steps: seq<Step>, o: LockId, r: nat)
    requires Quiet(s, o) && Run(s, steps, ANY) && NoCalls(steps, o)
    requires r < |s.renewers| && s.renewers[r].obj == o
    ensures AcquiresBy(steps, r) <= One(AboutToRenew(s, r))
    ensures Renewal(r, Check) in steps ==> Exits(After(s, steps), r)
    decreases |steps|
  {
    AtMostOneMoreRenewal(s, steps, o, r);
    if steps != [] {
      QuietStep(s, steps[0], o);
      NoCallsLater(steps, o);
      var s' := Apply(s, steps[0]);
      if steps[0] == Renewal(r, Check) {
        NextCheckExits(s, o, r);
        ExitedStays(s', steps[1..], r);
      } else {
        RenewerEnds(s', steps[1..], o, r);
      }
    }
  }

  // ---------------------------------------------------------------------------------------
  // How long the object still owns the key
  // ---------------------------------------------------------------------------------------

  /** No longer than one lease after the last such Acquire, be its reply lost or not. */
  lemma {:induction false} OwnsAtMostOneLeaseMore(s: Sys, steps: seq<Step>, o: LockId)
    requires Quiet(s, o) && Run(s, steps, ANY) && NoCalls(steps, o)
    requires Owns(After(s, steps).entry, After(s, steps).now, o)
    ensures match LastRenewal(s, steps, o)
      case Some(at) => After(s, steps).now < at + LeaseMs(s, o)
      case None => After(s, steps).entry == s.entry
    decreases |steps|
  {
    if steps != [] {
      QuietStep(s, steps[0], o);
      NoCallsLater(steps, o);
      var s' := Apply(s, steps[0]);
      OwnsAtMostOneLeaseMore(s', steps[1..], o);
      if RunsAcquire(s, steps[0], o) {
        RanAcquire(s, steps[0], o);
      }
    }
  }

  lemma RanAcquire(s: Sys, st: Step, o: LockId)
    requires Enabled(s, st) && RunsAcquire(s, st, o)
    ensures var e := Apply(s, st).entry;
      e.Owned? && e.owner == o ==> e.expiry == s.now + LeaseMs(s, o)
  {
  }

  /** Once no renewer is past its check, the key is only ever waiting for the current lease to end. */
  lemma {:induction false} NoRenewalLeft(s: Sys, steps: seq<Step>, o: LockId)
    requires Quiet(s, o) && Run(s, steps, ANY) && NoCalls(steps, o)
    requires forall r: nat :: AboutToRenew(s, r) ==> s.renewers[r].obj != o
    ensures LastRenewal(s, steps, o) == None
    decreases |steps|
  {
    if steps != [] {
      QuietStep(s, steps[0], o);
      NoCallsLater(steps, o);
      var s' := Apply(s, steps[0]);
      forall r: nat | AboutToRenew(s', r) ensures s'.renewers[r].obj != o {
        assert s'.renewers[r].obj == o ==> AboutToRenew(s, r);
      }
      NoRenewalLeft(s', steps[1..], o);
      assert RunsAcquire(s, steps[0], o) ==> AboutToRenew(s, steps[0].r);
    }
  }
}

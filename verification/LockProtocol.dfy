/**
 All interleavings of lock calls, unlocks and renewers on one key (redis/redis.go).

 Every goroutine step between two accesses to shared state is one transition: `Acquire` and
 `Release` on the store, the loads and stores of the `state` flag, `SetExpire`, and the start,
 wake-up, check and renewal of each `renewLock` goroutine. A transition is named by a `Step`
 and `Apply` is a function, so a run is the sequence of its steps.
 */
module LockProtocol {
  import opened Common
  import opened RedisLock

  /**
   `DeferredUnlock` is the Unlock a wrapper defers although its lock call failed: it answers no
   lock. A LockWithContext call without a deadline touches nothing, and so is no step.
   */
  datatype Kind = PlainLock | TryLock | ContextLock | Unlock | DeferredUnlock

  predicate Unlocks(kind: Kind) {
    kind.Unlock? || kind.DeferredUnlock?
  }

  /** What a call will do next; `at` is the time of the Acquire that let it in. */
  datatype Pc =
    | Trying
    | AwaitingDone
    | SettingExpire(at: nat)
    | Checking(at: nat)
    | Storing(at: nat)
    | Spawning(at: nat)
    | Releasing
    | Clearing

  datatype Call = Call(obj: LockId, kind: Kind, pc: Pc)

  datatype RenewPc = Sleeping(wake: nat) | Awake | Renewing | Exited

  /** A `renewLock` goroutine; `last` is the time of the Acquire whose lease it must extend. */
  datatype Renewer = Renewer(obj: LockId, last: nat, pc: RenewPc)

  datatype LockState = LockState(flag: bool, seconds: nat)

  /** `initial` is a new object's expire value; `held` has each successful lock that no Unlock has answered. */
  datatype Sys = Sys(
    now: nat,
    entry: Entry,
    initial: nat,
    objs: map<LockId, LockState>,
    calls: map<nat, Call>,
    renewers: seq<Renewer>,
    held: multiset<LockId>)

  /** What a call does next. The reply to an Acquire or Release may be lost after its script has run. */
  datatype CallAct =
    | Acquire
    | AcquireErrs(acquired: bool)
    | ContextDone
    | SetExpire
    | LoadFlag
    | StoreFlag
    | Spawn
    | Release
    | ReleaseErrs(deleted: bool)
    | ClearFlag

  /** What a renewer does next. */
  datatype RenewAct = Wake | Check | Renew | RenewErrs(acquired: bool)

  datatype Step =
    | Tick(to: nat)
    | Begin(t: nat, o: LockId, kind: Kind)
    | By(t: nat, a: CallAct)
    | Renewal(r: nat, w: RenewAct)

  function Init(initial: nat): Sys {
    Sys(0, Free, initial, map[], map[], [], multiset{})
  }

  function Obj(s: Sys, o: LockId): LockState {
    if o in s.objs then s.objs[o] else LockState(false, s.initial)
  }

  predicate CallAt(s: Sys, t: nat, o: LockId) {
    t in s.calls && s.calls[t].obj == o
  }

  predicate MayAct(pc: Pc, a: CallAct) {
    match a
    case Acquire => pc.Trying?
    case AcquireErrs(_) => pc.Trying?
    case ContextDone => pc.AwaitingDone?
    case SetExpire => pc.SettingExpire?
    case LoadFlag => pc.Checking?
    case StoreFlag => pc.Storing?
    case Spawn => pc.Spawning?
    case Release => pc.Releasing?
    case ReleaseErrs(_) => pc.Releasing?
    case ClearFlag => pc.Clearing?
  }

  predicate MayRenew(pc: RenewPc, now: nat, w: RenewAct) {
    match w
    case Wake => pc.Sleeping? && pc.wake <= now
    case Check => pc.Awake?
    case Renew => pc.Renewing?
    case RenewErrs(_) => pc.Renewing?
  }

  predicate Enabled(s: Sys, st: Step) {
    match st
    case Tick(to) => s.now <= to
    case Begin(t, _, _) => t !in s.calls
    case By(t, a) => t in s.calls && MayAct(s.calls[t].pc, a)
    case Renewal(r, w) => r < |s.renewers| && MayRenew(s.renewers[r].pc, s.now, w)
  }

  function SetPc(s: Sys, t: nat, pc: Pc): Sys
    requires t in s.calls
  {
    s.(calls := s.calls[t := s.calls[t].(pc := pc)])
  }

  function Return(s: Sys, t: nat): Sys {
    s.(calls := s.calls - {t})
  }

  function SetObj(s: Sys, o: LockId, l: LockState): Sys {
    s.(objs := s.objs[o := l])
  }

  function SetRenewer(s: Sys, r: nat, pc: RenewPc): Sys
    requires r < |s.renewers|
  {
    s.(renewers := s.renewers[r := s.renewers[r].(pc := pc)])
  }

  function DoBegin(s: Sys, t: nat, o: LockId, kind: Kind): Sys {
    var pc := if Unlocks(kind) then Releasing else Trying;
    var s := s.(calls := s.calls[t := Call(o, kind, pc)]);
    if kind.ContextLock? then SetObj(s, o, Obj(s, o).(seconds := LEASE_SECONDS)) else s
  }

  function DoAcquire(s: Sys, t: nat): Sys
    requires Enabled(s, By(t, Acquire))
  {
    var c := s.calls[t];
    if Acquirable(s.entry, s.now, c.obj) then
      var s' := s.(entry := Leased(c.obj, s.now, Obj(s, c.obj).seconds), held := s.held + multiset{c.obj});
      SetPc(s', t, if c.kind.ContextLock? then Checking(s.now) else SettingExpire(s.now))
    else
      match c.kind
      case PlainLock => s
      case ContextLock => SetPc(s, t, AwaitingDone)
      case _ => Return(s, t)
  }

  /** The reply of an Acquire is lost: the script may or may not have run, and the caller takes it for a failure. */
  function LostAcquire(s: Sys, o: LockId, acquired: bool): Sys {
    if acquired && Acquirable(s.entry, s.now, o) then s.(entry := Leased(o, s.now, Obj(s, o).seconds)) else s
  }

  /** An Unlock answers one successful lock through its object. */
  function Answered(s: Sys, c: Call): Sys {
    if c.kind.Unlock? then s.(held := s.held - multiset{c.obj}) else s
  }

  function DoRelease(s: Sys, t: nat): Sys
    requires Enabled(s, By(t, Release))
  {
    var o := s.calls[t].obj;
    var s' := Answered(s, s.calls[t]);
    if Owns(s.entry, s.now, o) then SetPc(s'.(entry := Free), t, Clearing) else Return(s', t)
  }

  /** The reply is lost: the script may or may not have run, and Unlock leaves the flag alone. */
  function DoReleaseErrs(s: Sys, t: nat, deleted: bool): Sys
    requires Enabled(s, By(t, ReleaseErrs(deleted)))
  {
    var o := s.calls[t].obj;
    var s' := Return(Answered(s, s.calls[t]), t);
    if deleted && Owns(s.entry, s.now, o) then s'.(entry := Free) else s'
  }

  function DoRenew(s: Sys, r: nat): Sys
    requires Enabled(s, Renewal(r, Renew))
  {
    var o := s.renewers[r].obj;
    if Acquirable(s.entry, s.now, o) then
      s.(entry := Leased(o, s.now, Obj(s, o).seconds),
         renewers := s.renewers[r := Renewer(o, s.now, Sleeping(s.now + RENEW_MS))])
    else SetRenewer(s, r, Exited)
  }

  function DoAct(s: Sys, t: nat, a: CallAct): Sys
    requires Enabled(s, By(t, a))
  {
    var c := s.calls[t];
    var o := c.obj;
    match a
    case Acquire => DoAcquire(s, t)
    case AcquireErrs(acquired) => Return(LostAcquire(s, o, acquired), t)
    case ContextDone => Return(s, t)
    case SetExpire => SetPc(SetObj(s, o, Obj(s, o).(seconds := LEASE_SECONDS)), t, Checking(c.pc.at))
    case LoadFlag => if Obj(s, o).flag then Return(s, t) else SetPc(s, t, Storing(c.pc.at))
    case StoreFlag => SetPc(SetObj(s, o, Obj(s, o).(flag := true)), t, Spawning(c.pc.at))
    case Spawn => Return(s.(renewers := s.renewers + [Renewer(o, c.pc.at, Sleeping(s.now + RENEW_MS))]), t)
    case Release => DoRelease(s, t)
    case ReleaseErrs(deleted) => DoReleaseErrs(s, t, deleted)
    case ClearFlag => Return(SetObj(s, o, Obj(s, o).(flag := false)), t)
  }

  function DoRenewal(s: Sys, r: nat, w: RenewAct): Sys
    requires Enabled(s, Renewal(r, w))
  {
    var o := s.renewers[r].obj;
    match w
    case Wake => SetRenewer(s, r, Awake)
    case Check => SetRenewer(s, r, if Obj(s, o).flag then Renewing else Exited)
    case Renew => DoRenew(s, r)
    case RenewErrs(acquired) => SetRenewer(LostAcquire(s, o, acquired), r, Exited)
  }

  function Apply(s: Sys, st: Step): Sys
    requires Enabled(s, st)
  {
    match st
    case Tick(to) => s.(now := to)
    case Begin(t, o, kind) => DoBegin(s, t, o, kind)
    case By(t, a) => DoAct(s, t, a)
    case Renewal(r, w) => DoRenewal(s, r, w)
  }

  /** The state a run ends in; steps after one that cannot be taken are dropped. */
  function After(s: Sys, steps: seq<Step>): Sys
    decreases |steps|
  {
    if steps == [] || !Enabled(s, steps[0]) then s else After(Apply(s, steps[0]), steps[1..])
  }

  // ---------------------------------------------------------------------------------------
  // The conditions under which the lock excludes
  // ---------------------------------------------------------------------------------------

  predicate HasEntered(pc: Pc) {
    pc.SettingExpire? || pc.Checking? || pc.Storing? || pc.Spawning?
  }

  /** Each lease is renewed, or its renewer started, before it would have run sixty seconds. */
  predicate Timely(s: Sys, to: nat) {
    && (forall t :: t in s.calls && HasEntered(s.calls[t].pc) ==> to < s.calls[t].pc.at + LEASE_MS)
    && (forall r :: 0 <= r < |s.renewers| && !s.renewers[r].pc.Exited? ==> to < s.renewers[r].last + LEASE_MS)
  }

  /** The lock call starts with a full lease: LockWithContext always does, the others if it is already set. */
  predicate FullLease(s: Sys, st: Step) {
    st.Begin? && st.kind in {PlainLock, TryLock} ==> Obj(s, st.o).seconds >= LEASE_SECONDS
  }

  /** What a run may be required to keep to. */
  datatype Rules = Rules(
    acquireAnswers: bool,   // Acquire never fails with an error
    releaseAnswers: bool,   // nor does Release
    onTime: bool,           // every lease is renewed before it ends
    oneCall: bool,          // calls through one lock object do not overlap
    fullLease: bool,        // every lock call starts with a full lease
    noNesting: bool)        // no lock call or deferred Unlock begins through an object that already holds the key

  const ALL := Rules(true, true, true, true, true, true)
  const ANY := Rules(false, false, false, false, false, false)

  predicate Allowed(s: Sys, st: Step, h: Rules) {
    && (h.acquireAnswers ==> !(st.By? && st.a.AcquireErrs?) && !(st.Renewal? && st.w.RenewErrs?))
    && (h.releaseAnswers ==> !(st.By? && st.a.ReleaseErrs?))
    && (h.onTime && st.Tick? ==> Timely(s, st.to))
    && (h.oneCall && st.Begin? ==> forall u :: u in s.calls ==> s.calls[u].obj != st.o)
    && (h.fullLease ==> FullLease(s, st))
    && (h.noNesting && st.Begin? && !st.kind.Unlock? ==> st.o !in s.held)
  }

  predicate Run(s: Sys, steps: seq<Step>, h: Rules)
    decreases |steps|
  {
    steps == [] ||
    (Enabled(s, steps[0]) && Allowed(s, steps[0], h) && Run(Apply(s, steps[0]), steps[1..], h))
  }

  // ---------------------------------------------------------------------------------------
  // The invariant
  // ---------------------------------------------------------------------------------------

  predicate LivesOn(s: Sys, r: nat, o: LockId) {
    r < |s.renewers| && s.renewers[r].obj == o && !s.renewers[r].pc.Exited?
  }

  /** Renewer `r` still answers for the lease on `o`. */
  predicate Renews(s: Sys, r: nat, o: LockId) {
    LivesOn(s, r, o) && s.entry.Owned? && s.renewers[r].last + LEASE_MS <= s.entry.expiry
  }

  /** The call of thread `t` on `o` has been let in and has not yet handed over to a renewer. */
  predicate HandsOver(s: Sys, t: nat, o: LockId) {
    && CallAt(s, t, o) && HasEntered(s.calls[t].pc)
    && s.entry.Owned? && s.calls[t].pc.at + LEASE_MS <= s.entry.expiry
  }

  ghost predicate Guarded(s: Sys, o: LockId) {
    if Obj(s, o).flag then
      (exists r :: Renews(s, r, o)) || (exists t :: HandsOver(s, t, o) && s.calls[t].pc.Spawning?)
    else
      exists t :: HandsOver(s, t, o) && !s.calls[t].pc.Spawning?
  }

  /** An Unlock of `o` has deleted the key and has not yet cleared the flag. */
  ghost predicate Leaving(s: Sys, o: LockId) {
    exists t :: CallAt(s, t, o) && s.calls[t].pc.Clearing?
  }

  ghost predicate OneCallPerObject(s: Sys) {
    forall t, u :: t in s.calls && CallAt(s, u, s.calls[t].obj) ==> t == u
  }

  predicate CallOk(s: Sys, t: nat)
    requires t in s.calls
  {
    var c := s.calls[t];
    && (Unlocks(c.kind) <==> c.pc.Releasing? || c.pc.Clearing?)
    && (HasEntered(c.pc) ==> c.obj in s.held && c.pc.at <= s.now < c.pc.at + LEASE_MS)
    && (HasEntered(c.pc) || c.pc.Trying? ==> Obj(s, c.obj).seconds >= LEASE_SECONDS)
    && (c.pc.Storing? ==> !Obj(s, c.obj).flag)
    && (c.pc.Spawning? ==> Obj(s, c.obj).flag)
    && (c.pc.Trying? || c.pc.Clearing? || c.kind.DeferredUnlock? ==> c.obj !in s.held)
  }

  predicate RenewerOk(s: Sys, r: nat)
    requires r < |s.renewers|
  {
    var w := s.renewers[r];
    !w.pc.Exited? ==> w.last <= s.now < w.last + LEASE_MS && Obj(s, w.obj).seconds >= LEASE_SECONDS
  }

  ghost predicate ObjOk(s: Sys, o: LockId) {
    && s.held[o] <= 1
    && (o in s.held ==> s.entry.Owned? && s.entry.owner == o && Guarded(s, o))
    && (o !in s.held && Obj(s, o).flag ==> Leaving(s, o))
  }

  ghost predicate Inv(s: Sys) {
    && OneCallPerObject(s)
    && (forall t :: t in s.calls ==> CallOk(s, t))
    && (forall r: nat :: r < |s.renewers| ==> RenewerOk(s, r))
    && (forall o :: ObjOk(s, o))
  }

  /** A held key is still leased: its guard acts before the lease it answers for ends. */
  lemma HeldIsLeased(s: Sys, o: LockId)
    requires Inv(s) && o in s.held
    ensures Owns(s.entry, s.now, o)
  {
    assert ObjOk(s, o);
    if r :| Renews(s, r, o) {
      assert RenewerOk(s, r);
    } else {
      var t :| HandsOver(s, t, o);
      assert CallOk(s, t);
    }
  }

  ghost predicate MayTake(s: Sys, st: Step) {
    Inv(s) && Enabled(s, st) && Allowed(s, st, ALL)
  }

  // --- What steps leave alone ---

  /** An action of a call touches no other call. */
  lemma ActKeepsOthers(s: Sys, t: nat, a: CallAct)
    requires Enabled(s, By(t, a))
    ensures var s', c := DoAct(s, t, a), s.calls[t];
      && (forall u :: u != t ==> (u in s'.calls <==> u in s.calls) && (u in s.calls ==> s'.calls[u] == s.calls[u]))
      && (t in s'.calls ==> s'.calls[t].obj == c.obj)
  {
  }

  /** Nor any other object. */
  lemma ActKeepsObjects(s: Sys, t: nat, a: CallAct, o: LockId)
    requires Enabled(s, By(t, a)) && o != s.calls[t].obj
    ensures Obj(DoAct(s, t, a), o) == Obj(s, o) && DoAct(s, t, a).held[o] == s.held[o]
  {
  }

  /** And it never shortens its own object's lease. */
  lemma ActKeepsLease(s: Sys, t: nat, a: CallAct)
    requires Enabled(s, By(t, a))
    ensures var o := s.calls[t].obj;
      Obj(s, o).seconds >= LEASE_SECONDS ==> Obj(DoAct(s, t, a), o).seconds >= LEASE_SECONDS
  {
  }

  lemma ActFrame(s: Sys, t: nat, a: CallAct)
    requires Enabled(s, By(t, a))
    ensures var s', c := DoAct(s, t, a), s.calls[t];
      && s'.now == s.now
      && (forall u :: u != t ==> (u in s'.calls <==> u in s.calls) && (u in s.calls ==> s'.calls[u] == s.calls[u]))
      && (t in s'.calls ==> s'.calls[t].obj == c.obj)
      && (forall o :: o != c.obj ==> Obj(s', o) == Obj(s, o) && s'.held[o] == s.held[o])
      && (Obj(s, c.obj).seconds >= LEASE_SECONDS ==> Obj(s', c.obj).seconds >= LEASE_SECONDS)
      && s'.renewers == s.renewers
         + if a.Spawn? then [Renewer(c.obj, c.pc.at, Sleeping(s.now + RENEW_MS))] else []
  {
    ActKeepsOthers(s, t, a);
    ActKeepsLease(s, t, a);
    forall o | o != s.calls[t].obj ensures Obj(DoAct(s, t, a), o) == Obj(s, o) && DoAct(s, t, a).held[o] == s.held[o] {
      ActKeepsObjects(s, t, a, o);
    }
  }

  /** A renewer touches no call, no object and no other renewer. */
  lemma RenewalFrame(s: Sys, r: nat, w: RenewAct)
    requires Enabled(s, Renewal(r, w))
    ensures var s' := DoRenewal(s, r, w);
      && s'.now == s.now && s'.calls == s.calls && s'.objs == s.objs && s'.held == s.held && s'.initial == s.initial
      && |s'.renewers| == |s.renewers| && s'.renewers[r].obj == s.renewers[r].obj
      && (forall q :: 0 <= q < |s.renewers| && q != r ==> s'.renewers[q] == s.renewers[q])
  {
  }

  // --- Calls ---

  lemma StepKeepsOneCall(s: Sys, st: Step)
    requires MayTake(s, st)
    ensures OneCallPerObject(Apply(s, st))
  {
    var s' := Apply(s, st);
    match st
    case By(t, a) => ActKeepsOneCall(s, t, a);
    case Renewal(r, w) =>
      RenewalFrame(s, r, w);
      SameCalls(s, s');
    case Tick(_) => SameCalls(s, s');
    case Begin(_, _, _) =>
      forall t, u | t in s'.calls && CallAt(s', u, s'.calls[t].obj) ensures t == u {
        assert t in s.calls && u in s.calls ==> CallAt(s, u, s.calls[t].obj);
      }
  }

  lemma SameCalls(s: Sys, s': Sys)
    requires OneCallPerObject(s) && s'.calls == s.calls
    ensures OneCallPerObject(s')
  {
    forall t, u | t in s'.calls && CallAt(s', u, s'.calls[t].obj) ensures t == u {
      assert CallAt(s, u, s.calls[t].obj);
    }
  }

  lemma OnlyCall(s: Sys, t: nat)
    requires OneCallPerObject(s) && t in s.calls
    ensures forall u :: CallAt(s, u, s.calls[t].obj) ==> u == t
  {
  }

  lemma ActKeepsOneCall(s: Sys, t: nat, a: CallAct)
    requires MayTake(s, By(t, a))
    ensures OneCallPerObject(DoAct(s, t, a))
  {
    ActFrame(s, t, a);
    var s' := DoAct(s, t, a);
    forall u, v | u in s'.calls && CallAt(s', v, s'.calls[u].obj) ensures u == v {
      assert CallAt(s, v, s.calls[u].obj);
    }
  }

  lemma AcquireKeepsOwnCall(s: Sys, t: nat)
    requires MayTake(s, By(t, Acquire)) && t in DoAct(s, t, Acquire).calls
    ensures CallOk(DoAct(s, t, Acquire), t)
  {
    assert CallOk(s, t);
  }

  lemma ReleaseKeepsOwnCall(s: Sys, t: nat)
    requires MayTake(s, By(t, Release)) && t in DoAct(s, t, Release).calls
    ensures CallOk(DoAct(s, t, Release), t)
  {
    assert CallOk(s, t) && ObjOk(s, s.calls[t].obj);
  }

  lemma ActKeepsOwnCall(s: Sys, t: nat, a: CallAct)
    requires MayTake(s, By(t, a)) && t in DoAct(s, t, a).calls
    ensures CallOk(DoAct(s, t, a), t)
  {
    assert CallOk(s, t);
    if a.Acquire? {
      AcquireKeepsOwnCall(s, t);
    } else if a.Release? {
      ReleaseKeepsOwnCall(s, t);
    }
  }

  lemma ActKeepsCalls(s: Sys, t: nat, a: CallAct, u: nat)
    requires MayTake(s, By(t, a)) && u in DoAct(s, t, a).calls
    ensures CallOk(DoAct(s, t, a), u)
  {
    if u == t {
      ActKeepsOwnCall(s, t, a);
    } else {
      ActFrame(s, t, a);
      assert CallOk(s, u) && !CallAt(s, t, s.calls[u].obj);
    }
  }

  lemma StepKeepsCalls(s: Sys, st: Step, t: nat)
    requires MayTake(s, st) && t in Apply(s, st).calls
    ensures CallOk(Apply(s, st), t)
  {
    match st
    case Tick(_) => assert CallOk(s, t);
    case Begin(_, _, _) => assert t in s.calls ==> CallOk(s, t);
    case By(u, a) => ActKeepsCalls(s, u, a, t);
    case Renewal(r, w) =>
      RenewalFrame(s, r, w);
      assert CallOk(s, t);
  }

  // --- Renewers ---

  lemma ActKeepsRenewers(s: Sys, t: nat, a: CallAct, r: nat)
    requires MayTake(s, By(t, a)) && r < |DoAct(s, t, a).renewers|
    ensures RenewerOk(DoAct(s, t, a), r)
  {
    ActFrame(s, t, a);
    assert CallOk(s, t);
    if r < |s.renewers| {
      assert RenewerOk(s, r);
      assert s.renewers[r].obj != s.calls[t].obj ==>
        Obj(DoAct(s, t, a), s.renewers[r].obj) == Obj(s, s.renewers[r].obj);
    }
  }

  lemma StepKeepsRenewers(s: Sys, st: Step, r: nat)
    requires MayTake(s, st) && r < |Apply(s, st).renewers|
    ensures RenewerOk(Apply(s, st), r)
  {
    match st
    case By(t, a) => ActKeepsRenewers(s, t, a, r);
    case Renewal(q, w) =>
      RenewalFrame(s, q, w);
      assert RenewerOk(s, r);
    case _ => assert RenewerOk(s, r);
  }

  // --- Objects ---

  lemma GuardStays(s: Sys, s': Sys, o: LockId)
    requires ObjOk(s, o) && o in s.held && Obj(s', o).flag == Obj(s, o).flag && s'.entry == s.entry
    requires forall t :: HandsOver(s, t, o) ==> t in s'.calls && s'.calls[t] == s.calls[t]
    requires Obj(s, o).flag ==>
      forall r: nat :: Renews(s, r, o) ==> LivesOn(s', r, o) && s'.renewers[r].last == s.renewers[r].last
    ensures Guarded(s', o)
  {
    if Obj(s, o).flag && exists r :: Renews(s, r, o) {
      var r :| Renews(s, r, o);
      assert Renews(s', r, o);
    } else {
      var t :| HandsOver(s, t, o);
      assert HandsOver(s', t, o);
    }
  }

  lemma LeavingStays(s: Sys, s': Sys, o: LockId)
    requires Leaving(s, o)
    requires forall t :: CallAt(s, t, o) && s.calls[t].pc.Clearing? ==> t in s'.calls && s'.calls[t] == s.calls[t]
    ensures Leaving(s', o)
  {
    var t :| CallAt(s, t, o) && s.calls[t].pc.Clearing?;
    assert CallAt(s', t, o);
  }

  /** Time passes, or a call begins. */
  lemma QuietStepKeepsObj(s: Sys, st: Step, o: LockId)
    requires MayTake(s, st) && (st.Tick? || st.Begin?)
    ensures ObjOk(Apply(s, st), o)
  {
    var s' := Apply(s, st);
    assert ObjOk(s, o);
    if o in s.held {
      GuardStays(s, s', o);
    } else if Obj(s, o).flag {
      LeavingStays(s, s', o);
    }
  }

  /** An action on another object leaves this one's entry alone: it can neither take it nor free it. */
  lemma OtherActKeepsObj(s: Sys, t: nat, a: CallAct, o: LockId)
    requires MayTake(s, By(t, a)) && s.calls[t].obj != o
    ensures ObjOk(DoAct(s, t, a), o)
  {
    var s' := DoAct(s, t, a);
    ActFrame(s, t, a);
    assert ObjOk(s, o);
    if o in s.held {
      HeldIsLeased(s, o);
      assert s'.entry == s.entry;
      GuardStays(s, s', o);
    } else if Obj(s, o).flag {
      LeavingStays(s, s', o);
    }
  }

  lemma AcquireKeepsObj(s: Sys, t: nat)
    requires MayTake(s, By(t, Acquire))
    ensures ObjOk(DoAct(s, t, Acquire), s.calls[t].obj)
  {
    var s', o := DoAct(s, t, Acquire), s.calls[t].obj;
    assert ObjOk(s, o) && CallOk(s, t);
    OnlyCall(s, t);
    if Acquirable(s.entry, s.now, o) {
      assert !Obj(s, o).flag;
      assert HandsOver(s', t, o);
    } else if Obj(s, o).flag {
      LeavingStays(s, s', o);
    }
  }

  lemma SpawnKeepsObj(s: Sys, t: nat)
    requires MayTake(s, By(t, Spawn))
    ensures ObjOk(DoAct(s, t, Spawn), s.calls[t].obj)
  {
    var s', o := DoAct(s, t, Spawn), s.calls[t].obj;
    assert ObjOk(s, o) && CallOk(s, t);
    OnlyCall(s, t);
    if exists q :: Renews(s, q, o) {
      var q :| Renews(s, q, o);
      assert Renews(s', q, o);
    } else {
      assert Renews(s', |s.renewers|, o);
    }
  }

  /** A call that has been let in stays its object's guard until it starts a renewer. */
  lemma EnteredActKeepsObj(s: Sys, t: nat, a: CallAct)
    requires MayTake(s, By(t, a)) && (a.SetExpire? || a.LoadFlag? || a.StoreFlag?)
    ensures ObjOk(DoAct(s, t, a), s.calls[t].obj)
  {
    var s', o := DoAct(s, t, a), s.calls[t].obj;
    assert ObjOk(s, o) && CallOk(s, t);
    OnlyCall(s, t);
    if Obj(s, o).flag {
      GuardByRenewer(s, s', t, o);
    } else {
      assert HandsOver(s', t, o);
    }
  }

  lemma GuardByRenewer(s: Sys, s': Sys, t: nat, o: LockId)
    requires Inv(s) && CallAt(s, t, o) && HasEntered(s.calls[t].pc) && !s.calls[t].pc.Spawning?
    requires Obj(s, o).flag && Obj(s', o).flag && s'.entry == s.entry && s'.renewers == s.renewers
    ensures Guarded(s', o)
  {
    assert CallOk(s, t) && ObjOk(s, o);
    OnlyCall(s, t);
    var r :| Renews(s, r, o);
    assert Renews(s', r, o);
  }

  lemma LeavingActKeepsObj(s: Sys, t: nat, a: CallAct)
    requires MayTake(s, By(t, a)) && (a.Release? || a.ClearFlag? || a.ContextDone?)
    ensures ObjOk(DoAct(s, t, a), s.calls[t].obj)
  {
    var s', o := DoAct(s, t, a), s.calls[t].obj;
    assert ObjOk(s, o) && CallOk(s, t);
    OnlyCall(s, t);
    if o in s.held {
      HeldIsLeased(s, o);
      if a.ContextDone? {
        GuardStays(s, s', o);
      } else {
        assert a.Release? && o !in s'.held && CallAt(s', t, o);
      }
    }
  }

  lemma ActKeepsObj(s: Sys, t: nat, a: CallAct, o: LockId)
    requires MayTake(s, By(t, a))
    ensures ObjOk(DoAct(s, t, a), o)
  {
    if s.calls[t].obj != o {
      OtherActKeepsObj(s, t, a, o);
    } else {
      match a
      case Acquire => AcquireKeepsObj(s, t);
      case Spawn => SpawnKeepsObj(s, t);
      case SetExpire => EnteredActKeepsObj(s, t, a);
      case LoadFlag => EnteredActKeepsObj(s, t, a);
      case StoreFlag => EnteredActKeepsObj(s, t, a);
      case Release => LeavingActKeepsObj(s, t, a);
      case ClearFlag => LeavingActKeepsObj(s, t, a);
      case ContextDone => LeavingActKeepsObj(s, t, a);
    }
  }

  lemma RenewKeepsGuard(s: Sys, r: nat, o: LockId)
    requires MayTake(s, Renewal(r, Renew)) && o in s.held
    ensures Guarded(DoRenew(s, r), o)
  {
    var s' := DoRenew(s, r);
    assert ObjOk(s, o) && RenewerOk(s, r);
    HeldIsLeased(s, o);
    if Obj(s, o).flag && exists q :: Renews(s, q, o) {
      var q :| Renews(s, q, o);
      assert RenewerOk(s, q) && Renews(s', q, o);
    } else {
      var u :| HandsOver(s, u, o);
      assert CallOk(s, u) && HandsOver(s', u, o);
    }
  }

  lemma RenewalKeepsObj(s: Sys, r: nat, w: RenewAct, o: LockId)
    requires MayTake(s, Renewal(r, w))
    ensures ObjOk(DoRenewal(s, r, w), o)
  {
    var s' := DoRenewal(s, r, w);
    RenewalFrame(s, r, w);
    assert ObjOk(s, o);
    if o in s.held {
      HeldIsLeased(s, o);
      if w.Renew? {
        RenewKeepsGuard(s, r, o);
      } else {
        GuardStays(s, s', o);
      }
    } else if Obj(s, o).flag {
      LeavingStays(s, s', o);
    }
  }

  lemma StepKeepsObj(s: Sys, st: Step, o: LockId)
    requires MayTake(s, st)
    ensures ObjOk(Apply(s, st), o)
  {
    match st
    case By(t, a) => ActKeepsObj(s, t, a, o);
    case Renewal(r, w) => RenewalKeepsObj(s, r, w, o);
    case _ => QuietStepKeepsObj(s, st, o);
  }

  lemma StepKeepsInv(s: Sys, st: Step)
    requires MayTake(s, st)
    ensures Inv(Apply(s, st))
  {
    var s' := Apply(s, st);
    StepKeepsOneCall(s, st);
    forall t | t in s'.calls ensures CallOk(s', t) {
      StepKeepsCalls(s, st, t);
    }
    forall r: nat | r < |s'.renewers| ensures RenewerOk(s', r) {
      StepKeepsRenewers(s, st, r);
    }
    forall o ensures ObjOk(s', o) {
      StepKeepsObj(s, st, o);
    }
  }

  // ---------------------------------------------------------------------------------------
  // Mutual exclusion over whole runs
  // ---------------------------------------------------------------------------------------

  lemma {:induction false} RunKeepsInv(s: Sys, steps: seq<Step>)
    requires Inv(s) && Run(s, steps, ALL)
    ensures Inv(After(s, steps))
    decreases |steps|
  {
    if steps != [] {
      StepKeepsInv(s, steps[0]);
      RunKeepsInv(Apply(s, steps[0]), steps[1..]);
    }
  }

  predicate Exclusive(s: Sys) {
    forall o, p :: o in s.held && p in s.held ==> o == p
  }

  /**
   Mutual exclusion: however the steps interleave, no two lock objects are ever both between a
   successful lock and the Unlock that answers it.
   */
  lemma MutualExclusion(initial: nat, steps: seq<Step>)
    requires Run(Init(initial), steps, ALL)
    ensures Exclusive(After(Init(initial), steps))
  {
    RunKeepsInv(Init(initial), steps);
    var s := After(Init(initial), steps);
    forall o, p | o in s.held && p in s.held ensures o == p {
      assert ObjOk(s, o) && ObjOk(s, p);
    }
  }

  // ---------------------------------------------------------------------------------------
  // Every rule is needed
  // ---------------------------------------------------------------------------------------

  ghost predicate AllFull(s: Sys) {
    forall o :: Obj(s, o).seconds >= LEASE_SECONDS
  }

  /** Objects created with a full lease keep it, so then the rule about it holds by itself. */
  lemma {:induction false} FullFromTheStart(s: Sys, steps: seq<Step>, h: Rules)
    requires AllFull(s) && Run(s, steps, h)
    ensures Run(s, steps, h.(fullLease := true))
    decreases |steps|
  {
    if steps != [] {
      var s' := Apply(s, steps[0]);
      assert AllFull(s') by {
        forall o ensures Obj(s', o).seconds >= LEASE_SECONDS {
          assert Obj(s, o).seconds >= LEASE_SECONDS;
        }
      }
      FullFromTheStart(s', steps[1..], h);
    }
  }

  lemma {:induction false} RulesRelax(s: Sys, steps: seq<Step>, strict: Rules, h: Rules)
    requires Run(s, steps, strict) && forall s, st :: Allowed(s, st, strict) ==> Allowed(s, st, h)
    ensures Run(s, steps, h)
    decreases |steps|
  {
    if steps != [] {
      RulesRelax(Apply(s, steps[0]), steps[1..], strict, h);
    }
  }

  ghost predicate Reaches(s0: Sys, s: Sys, h: Rules) {
    exists steps :: Run(s0, steps, h) && After(s0, steps) == s
  }

  lemma {:induction false} Extend(s: Sys, steps: seq<Step>, st: Step, h: Rules)
    requires Run(s, steps, h) && Enabled(After(s, steps), st) && Allowed(After(s, steps), st, h)
    ensures Run(s, steps + [st], h)
    ensures After(s, steps + [st]) == Apply(After(s, steps), st)
    decreases |steps|
  {
    if steps == [] {
      assert Run(Apply(s, st), [], h);
    } else {
      assert (steps + [st])[1..] == steps[1..] + [st];
      Extend(Apply(s, steps[0]), steps[1..], st, h);
    }
  }

  /** Takes one more step of a run that is being written down. */
  lemma Go(s0: Sys, s: Sys, st: Step, h: Rules) returns (s': Sys)
    requires Reaches(s0, s, h) && Enabled(s, st) && Allowed(s, st, h)
    ensures s' == Apply(s, st) && Reaches(s0, s', h)
  {
    var steps :| Run(s0, steps, h) && After(s0, steps) == s;
    Extend(s0, steps, st, h);
    s' := Apply(s, st);
  }

  lemma Start(s0: Sys, h: Rules)
    ensures Reaches(s0, s0, h)
  {
    assert Run(s0, [], h) && After(s0, []) == s0;
  }

  lemma EnterThrough(s0: Sys, s: Sys, t: nat, o: LockId, h: Rules) returns (s': Sys)
    requires Reaches(s0, s, h) && t !in s.calls
    requires h.oneCall ==> forall u :: u in s.calls ==> s.calls[u].obj != o
    requires h.noNesting ==> o !in s.held
    requires Acquirable(s.entry, s.now, o)
    ensures Reaches(s0, s', h)
    ensures s' == s.(entry := Owned(o, s.now + LEASE_MS),
                     objs := s.objs[o := Obj(s, o).(seconds := LEASE_SECONDS)],
                     calls := s.calls[t := Call(o, ContextLock, Checking(s.now))], held := s.held + multiset{o})
  {
    s' := Go(s0, s, Begin(t, o, ContextLock), h);
    s' := Go(s0, s', By(t, Acquire), h);
    assert s'.calls == s.calls[t := Call(o, ContextLock, Checking(s.now))];
  }

  /** The rest of a call that has been let in: the flag goes up and a renewer starts. */
  lemma HandOverThrough(s0: Sys, s: Sys, t: nat, h: Rules) returns (s': Sys)
    requires Reaches(s0, s, h) && t in s.calls && s.calls[t].pc.Checking? && !Obj(s, s.calls[t].obj).flag
    ensures Reaches(s0, s', h)
    ensures var c := s.calls[t];
      s' == s.(calls := s.calls - {t}, objs := s.objs[c.obj := Obj(s, c.obj).(flag := true)],
               renewers := s.renewers + [Renewer(c.obj, c.pc.at, Sleeping(s.now + RENEW_MS))])
  {
    s' := Go(s0, s, By(t, LoadFlag), h);
    s' := Go(s0, s', By(t, StoreFlag), h);
    s' := Go(s0, s', By(t, Spawn), h);
    assert s'.calls == s.calls - {t};
  }

  /** A LockWithContext call that nothing interrupts, by an object whose flag is down. */
  lemma LockThrough(s0: Sys, s: Sys, t: nat, o: LockId, h: Rules) returns (s': Sys)
    requires Reaches(s0, s, h)
    requires forall u :: u in s.calls ==> u != t && s.calls[u].obj != o
    requires Acquirable(s.entry, s.now, o) && !Obj(s, o).flag && (h.noNesting ==> o !in s.held)
    ensures Reaches(s0, s', h)
    ensures s' == s.(entry := Owned(o, s.now + LEASE_MS), objs := s.objs[o := LockState(true, LEASE_SECONDS)],
                     renewers := s.renewers + [Renewer(o, s.now, Sleeping(s.now + RENEW_MS))],
                     held := s.held + multiset{o})
  {
    s' := EnterThrough(s0, s, t, o, h);
    s' := HandOverThrough(s0, s', t, h);
    assert s'.calls == s.calls;
    assert s'.objs == s.objs[o := LockState(true, LEASE_SECONDS)];
  }

  /** An Unlock by the owner that nothing interrupts. */
  lemma UnlockThrough(s0: Sys, s: Sys, t: nat, o: LockId, h: Rules) returns (s': Sys)
    requires Reaches(s0, s, h)
    requires forall u :: u in s.calls ==> u != t && s.calls[u].obj != o
    requires Owns(s.entry, s.now, o)
    ensures Reaches(s0, s', h)
    ensures s' == s.(entry := Free, objs := s.objs[o := Obj(s, o).(flag := false)], held := s.held - multiset{o})
  {
    s' := Go(s0, s, Begin(t, o, Unlock), h);
    s' := Go(s0, s', By(t, Release), h);
    s' := Go(s0, s', By(t, ClearFlag), h);
    assert s'.calls == s.calls;
  }

  const FULL := LockState(true, LEASE_SECONDS)
  const DOWN := LockState(false, LEASE_SECONDS)

  /**
   The first lease of TryLock and Lock uses the value the object had before, and a new object
   has 0. With less than the full lease another object gets in before any renewal is due.
   */
  lemma ShortFirstLease(initial: nat) returns (s: Sys)
    requires initial < LEASE_SECONDS
    ensures Reaches(Init(initial), s, ALL.(fullLease := false)) && !Exclusive(s)
  {
    var s0, h := Init(initial), ALL.(fullLease := false);
    Start(s0, h);
    s := Go(s0, s0, Begin(0, 0, TryLock), h);
    s := Go(s0, s, By(0, Acquire), h);
    s := Go(s0, s, By(0, SetExpire), h);
    s := Go(s0, s, By(0, LoadFlag), h);
    s := Go(s0, s, By(0, StoreFlag), h);
    s := Go(s0, s, By(0, Spawn), h);
    assert s.held == multiset{0} && s.calls == map[] && s.entry == Owned(0, initial * MILLIS);
    s := Go(s0, s, Tick(initial * MILLIS), h);
    s := LockThrough(s0, s, 1, 1, h);
    assert 0 in s.held && 1 in s.held;
  }

  lemma LateRenewal(initial: nat) returns (s: Sys)
    ensures Reaches(Init(initial), s, ALL.(onTime := false)) && !Exclusive(s)
  {
    var s0, h := Init(initial), ALL.(onTime := false);
    Start(s0, h);
    s := LockThrough(s0, s0, 0, 0, h);
    s := Go(s0, s, Tick(LEASE_MS), h);
    s := LockThrough(s0, s, 1, 1, h);
    assert 0 in s.held && 1 in s.held;
  }

  /** A renewer whose Acquire fails once with an error gives up for good. */
  lemma FailedRenewal(initial: nat) returns (s: Sys)
    ensures Reaches(Init(initial), s, ALL.(acquireAnswers := false)) && !Exclusive(s)
  {
    var s0, h := Init(initial), ALL.(acquireAnswers := false);
    Start(s0, h);
    s := LockThrough(s0, s0, 0, 0, h);
    s := Go(s0, s, Tick(RENEW_MS), h);
    s := Go(s0, s, Renewal(0, Wake), h);
    s := Go(s0, s, Renewal(0, Check), h);
    s := Go(s0, s, Renewal(0, RenewErrs(false)), h);
    s := Go(s0, s, Tick(LEASE_MS), h);
    s := LockThrough(s0, s, 1, 1, h);
    assert 0 in s.held && 1 in s.held;
  }

  /** A lock and an Unlock that has deleted the key and not yet cleared the flag. */
  lemma HalfUnlocked(initial: nat, h: Rules) returns (s: Sys)
    requires h == ALL.(oneCall := false)
    ensures Reaches(Init(initial), s, h)
    ensures s == Sys(0, Free, initial, map[0 := FULL], map[0 := Call(0, Unlock, Clearing)],
                     [Renewer(0, 0, Sleeping(RENEW_MS))], multiset{})
  {
    var s0 := Init(initial);
    Start(s0, h);
    s := LockThrough(s0, s0, 0, 0, h);
    s := Go(s0, s, Begin(0, 0, Unlock), h);
    s := Go(s0, s, By(0, Release), h);
  }

  /**
   Overlapping calls through one object: the second is let in between the Release and the
   clearing of the flag of an Unlock, so it starts no renewer and its lease runs out.
   */
  lemma SharedObjectLosesItsRenewer(initial: nat, h: Rules) returns (s: Sys)
    requires h == ALL.(oneCall := false)
    ensures Reaches(Init(initial), s, h)
    ensures s == Sys(0, Owned(0, LEASE_MS), initial, map[0 := DOWN], map[],
                     [Renewer(0, 0, Sleeping(RENEW_MS))], multiset{0})
  {
    var s0 := Init(initial);
    s := HalfUnlocked(initial, h);
    s := EnterThrough(s0, s, 1, 0, h);
    s := Go(s0, s, By(1, LoadFlag), h);
    s := Go(s0, s, By(0, ClearFlag), h);
    assert s.calls == map[];
  }

  lemma SharedObject(initial: nat) returns (s: Sys)
    ensures Reaches(Init(initial), s, ALL.(oneCall := false)) && !Exclusive(s)
  {
    var s0, h := Init(initial), ALL.(oneCall := false);
    s := SharedObjectLosesItsRenewer(initial, h);
    s := Go(s0, s, Tick(RENEW_MS), h);
    s := Go(s0, s, Renewal(0, Wake), h);
    s := Go(s0, s, Renewal(0, Check), h);
    s := Go(s0, s, Tick(LEASE_MS), h);
    s := LockThrough(s0, s, 2, 1, h);
    assert 0 in s.held && 1 in s.held;
  }

  /** Two successful locks through one object and one Unlock: the key is free and one lock is still held. */
  lemma NestedOnce(initial: nat, h: Rules) returns (s: Sys)
    requires h == ALL.(noNesting := false)
    ensures Reaches(Init(initial), s, h)
    ensures s == Sys(0, Free, initial, map[0 := DOWN], map[], [Renewer(0, 0, Sleeping(RENEW_MS))], multiset{0})
  {
    var s0 := Init(initial);
    Start(s0, h);
    s := LockThrough(s0, s0, 0, 0, h);
    s := EnterThrough(s0, s, 0, 0, h);
    s := Go(s0, s, By(0, LoadFlag), h);
    assert s.calls == map[];
    s := UnlockThrough(s0, s, 0, 0, h);
  }

  lemma NestedLock(initial: nat) returns (s: Sys)
    ensures Reaches(Init(initial), s, ALL.(noNesting := false)) && !Exclusive(s)
  {
    var s0, h := Init(initial), ALL.(noNesting := false);
    s := NestedOnce(initial, h);
    s := LockThrough(s0, s, 1, 1, h);
    assert 0 in s.held && 1 in s.held;
  }

  /** A wrapper without a deadline, inside an outer hold: its deferred Unlock frees the key of the outer lock. */
  lemma DeferredUnlockSteals(initial: nat) returns (s: Sys)
    ensures Reaches(Init(initial), s, ALL.(noNesting := false)) && !Exclusive(s)
  {
    var s0, h := Init(initial), ALL.(noNesting := false);
    Start(s0, h);
    s := LockThrough(s0, s0, 0, 0, h);
    s := Go(s0, s, Begin(0, 0, DeferredUnlock), h);
    s := Go(s0, s, By(0, Release), h);
    s := Go(s0, s, By(0, ClearFlag), h);
    assert s.calls == map[];
    s := LockThrough(s0, s, 1, 1, h);
    assert 0 in s.held && 1 in s.held;
  }

  /** After a lost reply to Release the flag stays up, and the old renewer meets a foreign owner and exits. */
  lemma LostReply(initial: nat, h: Rules) returns (s: Sys)
    requires h == ALL.(releaseAnswers := false)
    ensures Reaches(Init(initial), s, h)
    ensures s == Sys(0, Owned(1, LEASE_MS), initial, map[0 := FULL, 1 := FULL], map[],
                     [Renewer(0, 0, Sleeping(RENEW_MS)), Renewer(1, 0, Sleeping(RENEW_MS))], multiset{1})
  {
    var s0 := Init(initial);
    Start(s0, h);
    s := LockThrough(s0, s0, 0, 0, h);
    s := Go(s0, s, Begin(0, 0, Unlock), h);
    s := Go(s0, s, By(0, ReleaseErrs(true)), h);
    s := LockThrough(s0, s, 1, 1, h);
    assert s.calls == map[];
  }

  lemma LostReplyEndsTheRenewer(initial: nat, h: Rules) returns (s: Sys)
    requires h == ALL.(releaseAnswers := false)
    ensures Reaches(Init(initial), s, h)
    ensures s == Sys(RENEW_MS, Owned(1, LEASE_MS), initial, map[0 := FULL, 1 := FULL], map[],
                     [Renewer(0, 0, Exited), Renewer(1, 0, Sleeping(RENEW_MS))], multiset{1})
  {
    var s0 := Init(initial);
    s := LostReply(initial, h);
    s := Go(s0, s, Tick(RENEW_MS), h);
    s := Go(s0, s, Renewal(0, Wake), h);
    s := Go(s0, s, Renewal(0, Check), h);
    s := Go(s0, s, Renewal(0, Renew), h);
  }

  lemma OtherHolderLeaves(initial: nat, h: Rules) returns (s: Sys)
    requires h == ALL.(releaseAnswers := false)
    ensures Reaches(Init(initial), s, h)
    ensures s == Sys(RENEW_MS, Free, initial, map[0 := FULL, 1 := DOWN], map[],
                     [Renewer(0, 0, Exited), Renewer(1, 0, Exited)], multiset{})
  {
    var s0 := Init(initial);
    s := LostReplyEndsTheRenewer(initial, h);
    s := UnlockThrough(s0, s, 1, 1, h);
    s := Go(s0, s, Renewal(1, Wake), h);
    s := Go(s0, s, Renewal(1, Check), h);
  }

  /** From then on every lock through that object finds the flag up and starts no renewer. */
  lemma LockWithoutRenewer(initial: nat, h: Rules) returns (s: Sys)
    requires h == ALL.(releaseAnswers := false)
    ensures Reaches(Init(initial), s, h)
    ensures s == Sys(RENEW_MS, Owned(0, RENEW_MS + LEASE_MS), initial, map[0 := FULL, 1 := DOWN], map[],
                     [Renewer(0, 0, Exited), Renewer(1, 0, Exited)], multiset{0})
  {
    var s0 := Init(initial);
    s := OtherHolderLeaves(initial, h);
    s := EnterThrough(s0, s, 0, 0, h);
    s := Go(s0, s, By(0, LoadFlag), h);
    assert s.calls == map[];
  }

  lemma LostReleaseReplyStopsRenewal(initial: nat) returns (s: Sys)
    ensures Reaches(Init(initial), s, ALL.(releaseAnswers := false)) && !Exclusive(s)
  {
    var s0, h := Init(initial), ALL.(releaseAnswers := false);
    s := LockWithoutRenewer(initial, h);
    s := Go(s0, s, Tick(RENEW_MS + LEASE_MS), h);
    s := LockThrough(s0, s, 2, 1, h);
    assert 0 in s.held && 1 in s.held;
  }

  /** Under all the rules a call may take to the last millisecond of its lease to hand over to its renewer. */
  lemma SlowestEntry(initial: nat) returns (s: Sys)
    ensures Reaches(Init(initial), s, ALL) && s.now == 59_999 && s.held == multiset{0} && s.entry == Owned(0, 60_000)
  {
    var s0 := Init(initial);
    Start(s0, ALL);
    s := EnterThrough(s0, s0, 0, 0, ALL);
    s := Go(s0, s, Tick(59_999), ALL);
  }

  /** And a lock may be held for any time, its lease renewed each time in its last millisecond. */
  lemma {:induction false} HeldThroughRenewals(initial: nat, n: nat) returns (s: Sys)
    ensures Reaches(Init(initial), s, ALL)
    ensures var t := 59_999 * n;
      s == Sys(t, Owned(0, t + 60_000), initial, map[0 := FULL], map[], [Renewer(0, t, Sleeping(t + 50_000))],
               multiset{0})
    decreases n
  {
    var s0 := Init(initial);
    if n == 0 {
      Start(s0, ALL);
      s := LockThrough(s0, s0, 0, 0, ALL);
      assert s.calls == map[];
    } else {
      s := HeldThroughRenewals(initial, n - 1);
      s := OneLateRenewal(s0, s, ALL);
    }
  }

  lemma OneLateRenewal(s0: Sys, s: Sys, h: Rules) returns (s': Sys)
    requires Reaches(s0, s, h) && s.calls == map[] && s.objs == map[0 := FULL] && s.entry == Owned(0, s.now + 60_000)
    requires s.renewers == [Renewer(0, s.now, Sleeping(s.now + 50_000))]
    ensures Reaches(s0, s', h)
    ensures var t := s.now + 59_999;
      s' == s.(now := t, entry := Owned(0, t + 60_000), renewers := [Renewer(0, t, Sleeping(t + 50_000))])
  {
    s' := Go(s0, s, Tick(s.now + 59_999), h);
    s' := Go(s0, s', Renewal(0, Wake), h);
    s' := Go(s0, s', Renewal(0, Check), h);
    s' := Go(s0, s', Renewal(0, Renew), h);
  }

  ghost predicate AlwaysExclusive(initial: nat, h: Rules) {
    forall steps :: Run(Init(initial), steps, h) ==> Exclusive(After(Init(initial), steps))
  }

  lemma Breaks(initial: nat, s: Sys, strict: Rules, h: Rules)
    requires Reaches(Init(initial), s, strict) && !Exclusive(s)
    requires forall s, st :: Allowed(s, st, strict) ==> Allowed(s, st, h)
    ensures !AlwaysExclusive(initial, h)
  {
    var steps :| Run(Init(initial), steps, strict) && After(Init(initial), steps) == s;
    RulesRelax(Init(initial), steps, strict, h);
  }

  /**
   Exactly when the lock excludes: every run does, if and only if the store always answers,
   renewals are on time, calls through one object neither overlap nor nest, and each lock call
   starts with a full lease, by rule or because objects are created with one.
   */
  lemma ExclusiveExactlyUnderTheRules(initial: nat, h: Rules)
    ensures AlwaysExclusive(initial, h) <==>
      && h.acquireAnswers && h.releaseAnswers && h.onTime && h.oneCall && h.noNesting
      && (h.fullLease || initial >= LEASE_SECONDS)
  {
    if !h.acquireAnswers {
      var s := FailedRenewal(initial);
      Breaks(initial, s, ALL.(acquireAnswers := false), h);
    } else if !h.releaseAnswers {
      var s := LostReleaseReplyStopsRenewal(initial);
      Breaks(initial, s, ALL.(releaseAnswers := false), h);
    } else if !h.onTime {
      var s := LateRenewal(initial);
      Breaks(initial, s, ALL.(onTime := false), h);
    } else if !h.oneCall {
      var s := SharedObject(initial);
      Breaks(initial, s, ALL.(oneCall := false), h);
    } else if !h.noNesting {
      var s := NestedLock(initial);
      Breaks(initial, s, ALL.(noNesting := false), h);
    } else if !h.fullLease && initial < LEASE_SECONDS {
      var s := ShortFirstLease(initial);
      Breaks(initial, s, ALL.(fullLease := false), h);
    } else {
      forall steps | Run(Init(initial), steps, h) ensures Exclusive(After(Init(initial), steps)) {
        if !h.fullLease {
          FullFromTheStart(Init(initial), steps, h);
        }
        MutualExclusion(initial, steps);
      }
    }
  }

  // ---------------------------------------------------------------------------------------
  // Left alone, the steps of a call do what the method does
  // ---------------------------------------------------------------------------------------

  function ViewOf(s: Sys, o: LockId): View {
    View(s.now, s.entry, true, Obj(s, o).flag, Obj(s, o).seconds, |s.renewers|)
  }

  /** The second half of a lock call that has been let in, from the check of the flag on. */
  lemma EnteredInSteps(s0: Sys, s: Sys, t: nat) returns (s': Sys)
    requires Reaches(s0, s, ANY) && t in s.calls && s.calls[t].pc.Checking?
    ensures var o := s.calls[t].obj;
      && Reaches(s0, s', ANY) && s'.calls == s.calls - {t} && s'.held == s.held
      && ViewOf(s', o) == Locked(ViewOf(s, o))
  {
    s' := Go(s0, s, By(t, LoadFlag), ANY);
    if !Obj(s, s.calls[t].obj).flag {
      s' := Go(s0, s', By(t, StoreFlag), ANY);
      s' := Go(s0, s', By(t, Spawn), ANY);
    }
  }

  lemma TryLockInSteps(s: Sys, t: nat, o: LockId) returns (s': Sys)
    requires t !in s.calls
    ensures Reaches(s, s', ANY) && s'.calls == s.calls
    ensures var (v, b) := TryLockSpec(o, ViewOf(s, o));
      ViewOf(s', o) == v && s'.held == if b then s.held + multiset{o} else s.held
  {
    Start(s, ANY);
    s' := Go(s, s, Begin(t, o, TryLock), ANY);
    s' := Go(s, s', By(t, Acquire), ANY);
    if Acquirable(s.entry, s.now, o) {
      s' := Go(s, s', By(t, SetExpire), ANY);
      s' := EnteredInSteps(s, s', t);
    }
    assert s'.calls == s.calls;
  }

  lemma LockWithContextInSteps(s: Sys, t: nat, o: LockId, deadline: nat) returns (s': Sys)
    requires t !in s.calls
    ensures Reaches(s, s', ANY) && s'.calls == s.calls
    ensures var (v, b) := LockWithContextSpec(o, ViewOf(s, o), Some(deadline));
      ViewOf(s', o) == v && s'.held == if b then s.held + multiset{o} else s.held
  {
    Start(s, ANY);
    if Acquirable(s.entry, s.now, o) {
      s' := EnterThrough(s, s, t, o, ANY);
      s' := EnteredInSteps(s, s', t);
    } else {
      s' := Go(s, s, Begin(t, o, ContextLock), ANY);
      s' := Go(s, s', By(t, Acquire), ANY);
      s' := Go(s, s', Tick(if s.now < deadline then deadline else s.now), ANY);
      s' := Go(s, s', By(t, ContextDone), ANY);
    }
    assert s'.calls == s.calls;
  }

  /** Fruitless polls of a `Lock` call: only time passes. */
  lemma {:induction false} PollsInSteps(s0: Sys, s: Sys, t: nat, n: nat) returns (s': Sys)
    requires Reaches(s0, s, ANY) && t in s.calls && s.calls[t].kind.PlainLock? && s.calls[t].pc.Trying?
    requires n > 0 ==> !Acquirable(s.entry, s.now + POLL_MS * (n - 1), s.calls[t].obj)
    ensures Reaches(s0, s', ANY) && s' == s.(now := s.now + POLL_MS * n)
    decreases n
  {
    if n == 0 {
      s' := s;
    } else {
      s' := PollsInSteps(s0, s, t, n - 1);
      s' := Go(s0, s', By(t, Acquire), ANY);
      s' := Go(s0, s', Tick(s'.now + POLL_MS), ANY);
    }
  }

  lemma LockInSteps(s: Sys, t: nat, o: LockId) returns (s': Sys)
    requires t !in s.calls
    ensures Reaches(s, s', ANY) && s'.calls == s.calls && s'.held == s.held + multiset{o}
    ensures LockSpec(o, ViewOf(s, o)) == (ViewOf(s', o), true)
  {
    Start(s, ANY);
    s' := Go(s, s, Begin(t, o, PlainLock), ANY);
    s' := PollsInSteps(s, s', t, Polls(o, ViewOf(s, o)));
    s' := Go(s, s', By(t, Acquire), ANY);
    s' := Go(s, s', By(t, SetExpire), ANY);
    s' := EnteredInSteps(s, s', t);
    assert s'.calls == s.calls;
  }

  /** Unlock's result is whether its Release deletes the key, and so whether it goes on to clear the flag. */
  lemma UnlockInSteps(s: Sys, t: nat, o: LockId) returns (s': Sys, released: Sys)
    requires t !in s.calls
    ensures Reaches(s, released, ANY) && Reaches(s, s', ANY) && s'.calls == s.calls
    ensures t in released.calls ==> Enabled(released, By(t, ClearFlag))
    ensures s' == if t in released.calls then Apply(released, By(t, ClearFlag)) else released
    ensures (ViewOf(s', o), t in released.calls) == UnlockSpec(o, ViewOf(s, o))
    ensures s'.held == s.held - multiset{o}
  {
    Start(s, ANY);
    var begun := Go(s, s, Begin(t, o, Unlock), ANY);
    released := Go(s, begun, By(t, Release), ANY);
    s' := released;
    if Owns(s.entry, s.now, o) {
      s' := Go(s, released, By(t, ClearFlag), ANY);
    }
    assert s'.calls == s.calls;
  }

  lemma RenewInSteps(s: Sys, r: nat) returns (s': Sys)
    requires r < |s.renewers| && s.renewers[r].pc == Sleeping(s.now + RENEW_MS)
    ensures Reaches(s, s', ANY)
    ensures var o := s.renewers[r].obj;
      var (v, again) := RenewSpec(o, ViewOf(s, o));
      ViewOf(s', o) == v && again == !s'.renewers[r].pc.Exited?
  {
    Start(s, ANY);
    s' := Go(s, s, Tick(s.now + RENEW_MS), ANY);
    s' := Go(s, s', Renewal(r, Wake), ANY);
    s' := Go(s, s', Renewal(r, Check), ANY);
    if Obj(s, s.renewers[r].obj).flag {
      s' := Go(s, s', Renewal(r, Renew), ANY);
    }
  }

  // ---------------------------------------------------------------------------------------
  // And when the store errs
  // ---------------------------------------------------------------------------------------

  /** What a call by this object sees of a store that errs. */
  function Down(s: Sys, o: LockId): View {
    ViewOf(s, o).(up := false)
  }

  /** An error from Acquire, its script not run, ends a lock call as its specification says, and lets nobody in. */
  lemma ErringLockInSteps(s: Sys, t: nat, o: LockId, kind: Kind, deadline: nat) returns (s': Sys)
    requires t !in s.calls && !Unlocks(kind)
    ensures Reaches(s, s', ANY) && s'.calls == s.calls && s'.held == s.held
    ensures (Down(s', o), false) ==
      match kind
      case PlainLock => LockSpec(o, Down(s, o))
      case TryLock => TryLockSpec(o, Down(s, o))
      case _ => LockWithContextSpec(o, Down(s, o), Some(deadline))
  {
    Start(s, ANY);
    s' := Go(s, s, Begin(t, o, kind), ANY);
    s' := Go(s, s', By(t, AcquireErrs(false)), ANY);
    assert s'.calls == s.calls;
  }

  lemma ErringUnlockInSteps(s: Sys, t: nat, o: LockId) returns (s': Sys)
    requires t !in s.calls
    ensures Reaches(s, s', ANY) && s'.calls == s.calls && s'.held == s.held - multiset{o}
    ensures (Down(s', o), false) == UnlockSpec(o, Down(s, o))
  {
    Start(s, ANY);
    s' := Go(s, s, Begin(t, o, Unlock), ANY);
    s' := Go(s, s', By(t, ReleaseErrs(false)), ANY);
    assert s'.calls == s.calls;
  }

  lemma ErringRenewInSteps(s: Sys, r: nat) returns (s': Sys)
    requires r < |s.renewers| && s.renewers[r].pc == Sleeping(s.now + RENEW_MS)
    ensures Reaches(s, s', ANY) && r < |s'.renewers| && s'.renewers[r].pc.Exited?
    ensures (Down(s', s.renewers[r].obj), false) == RenewSpec(s.renewers[r].obj, Down(s, s.renewers[r].obj))
  {
    Start(s, ANY);
    s' := Go(s, s, Tick(s.now + RENEW_MS), ANY);
    s' := Go(s, s', Renewal(r, Wake), ANY);
    s' := Go(s, s', Renewal(r, Check), ANY);
    if Obj(s, s.renewers[r].obj).flag {
      s' := Go(s, s', Renewal(r, RenewErrs(false)), ANY);
    }
  }

  /** An Acquire whose reply is lost after its script has run has taken the lease all the same. */
  lemma LostReplyTookTheLease(s: Sys, o: LockId, t: nat, r: nat)
    requires Acquirable(s.entry, s.now, o)
    ensures CallAt(s, t, o) && s.calls[t].pc.Trying? ==>
      DoAct(s, t, AcquireErrs(true)).entry == Owned(o, s.now + Obj(s, o).seconds * 1000)
    ensures r < |s.renewers| && s.renewers[r].obj == o && s.renewers[r].pc.Renewing? ==>
      DoRenewal(s, r, RenewErrs(true)).entry == Owned(o, s.now + Obj(s, o).seconds * 1000)
  {
  }
}

/**
 The leased lock object of redis/redis.go and the store entry it competes for.

 Redis itself is one entry with an owner and an expiry. `Acquire` and `Release` are the two
 atomic scripts of the client library; everything above them is the repository's code. The
 methods here run without interference; LockProtocol interleaves the same operations.
 Time is in milliseconds.
 */
module RedisLock {
  import opened Common

  type LockId = nat

  const MILLIS: nat := 1000
  const LEASE_SECONDS: nat := 60
  const LEASE_MS: nat := 60_000
  const RENEW_MS: nat := 50_000
  const POLL_MS: nat := 10

  datatype Entry = Free | Owned(owner: LockId, expiry: nat)

  predicate Owns(entry: Entry, now: nat, id: LockId) {
    entry.Owned? && entry.owner == id && now < entry.expiry
  }

  predicate Acquirable(entry: Entry, now: nat, id: LockId) {
    entry.Free? || entry.expiry <= now || entry.owner == id
  }

  function Leased(id: LockId, now: nat, seconds: nat): Entry {
    Owned(id, now + seconds * MILLIS)
  }

  /** Everything one lock object and its store hold; `renewers` counts the goroutines started. */
  datatype View = View(now: nat, entry: Entry, up: bool, held: bool, seconds: nat, renewers: nat)

  /** What every successful `Acquire` inside a lock call is followed by. */
  function Locked(v: View): View {
    if v.held then v else v.(held := true, renewers := v.renewers + 1)
  }

  function TryLockSpec(id: LockId, v: View): (View, bool) {
    if !v.up || !Acquirable(v.entry, v.now, id) then (v, false)
    else (Locked(v.(entry := Leased(id, v.now, v.seconds), seconds := LEASE_SECONDS)), true)
  }

  /** How often `Lock` sleeps before the foreign lease has run out. */
  function Polls(id: LockId, v: View): nat {
    if Acquirable(v.entry, v.now, id) then 0 else (v.entry.expiry - v.now + POLL_MS - 1) / POLL_MS
  }

  function Later(v: View, ms: nat): View {
    v.(now := v.now + ms)
  }

  /** The state at the poll at which `Lock` gets the key. */
  function LockStart(id: LockId, v: View): View {
    Later(v, POLL_MS * Polls(id, v))
  }

  function LockSpec(id: LockId, v: View): (View, bool) {
    if !v.up then (v, false)
    else TryLockSpec(id, LockStart(id, v))
  }

  function LockWithContextSpec(id: LockId, v: View, deadline: Option<nat>): (View, bool) {
    if deadline.None? then (v, false)
    else
      var w := v.(seconds := LEASE_SECONDS);
      if !v.up then (w, false)
      else if Acquirable(v.entry, v.now, id) then
        (Locked(w.(entry := Leased(id, v.now, LEASE_SECONDS))), true)
      else (w.(now := if v.now < deadline.value then deadline.value else v.now), false)
  }

  function UnlockSpec(id: LockId, v: View): (View, bool) {
    if v.up && Owns(v.entry, v.now, id) then (v.(entry := Free, held := false), true) else (v, false)
  }

  /** What `renewLock` does between two sleeps; the result says whether the goroutine goes on. */
  function TurnSpec(id: LockId, v: View): (View, bool) {
    if !v.held || !v.up || !Acquirable(v.entry, v.now, id) then (v, false)
    else (v.(entry := Leased(id, v.now, v.seconds)), true)
  }

  /** One iteration of its loop. */
  function RenewSpec(id: LockId, v: View): (View, bool) {
    TurnSpec(id, Later(v, RENEW_MS))
  }

  /** The wrapped function's running time, cut into pauses at the turns of this object's renewers. */
  function Runs(id: LockId, v: View, pauses: seq<nat>): View
    decreases |pauses|
  {
    if pauses == [] then v
    else if |pauses| == 1 then Later(v, pauses[0])
    else Runs(id, TurnSpec(id, Later(v, pauses[0])).0, pauses[1..])
  }

  /** A lock call, the function if the lock was got, and the deferred Unlock; also whether it ran and the error. */
  function GuardedSpec(id: LockId, locked: (View, bool), pauses: seq<nat>, fails: bool): (View, bool, bool) {
    var w := if locked.1 then Runs(id, locked.0, pauses) else locked.0;
    (UnlockSpec(id, w).0, locked.1, locked.1 ==> fails)
  }

  class Store {
    var now: nat
    var entry: Entry
    var up: bool

    constructor ()
      ensures now == 0 && entry == Free && up
    {
      now, entry, up := 0, Free, true;
    }

    method Acquire(id: LockId, seconds: nat) returns (ok: bool, err: bool)
      modifies this`entry
      ensures err == !up
      ensures ok == (up && Acquirable(old(entry), now, id))
      ensures entry == if ok then Leased(id, now, seconds) else old(entry)
    {
      ok, err := false, !up;
      if up && Acquirable(entry, now, id) {
        entry := Leased(id, now, seconds);
        ok := true;
      }
    }

    method Release(id: LockId) returns (ok: bool, err: bool)
      modifies this`entry
      ensures err == !up
      ensures ok == (up && Owns(old(entry), now, id))
      ensures entry == if ok then Free else old(entry)
    {
      ok, err := false, !up;
      if up && Owns(entry, now, id) {
        entry := Free;
        ok := true;
      }
    }

    method Sleep(ms: nat)
      modifies this`now
      ensures now == old(now) + ms
    {
      now := now + ms;
    }
  }

  class Lock {
    const id: LockId
    const store: Store
    var state: nat
    var seconds: nat
    var renewers: nat

    constructor (store: Store, id: LockId)
      ensures this.store == store && this.id == id
      ensures state == 0 && seconds == 0 && renewers == 0
    {
      this.store, this.id := store, id;
      state, seconds, renewers := 0, 0, 0;
    }

    ghost function Sees(): View
      reads this, store
    {
      View(store.now, store.entry, store.up, state == 1, seconds, renewers)
    }

    /** After a successful lock: full leases from now on, the flag up, one renewer more unless it was up. */
    ghost predicate HoldsNow(state0: nat, renewers0: nat)
      reads this
    {
      seconds == 60 && state == 1 && renewers == renewers0 + if state0 == 1 then 0 else 1
    }

    method SetExpire(s: nat)
      modifies this`seconds
      ensures seconds == s
    {
      seconds := s;
    }

    method MarkHeld()
      modifies this`state, this`renewers
      ensures Sees() == Locked(old(Sees()))
    {
      if state == 1 {
        return;
      }
      state := 1;
      renewers := renewers + 1;
    }

    method TryLock() returns (b: bool)
      modifies this, store`entry
      ensures (Sees(), b) == TryLockSpec(id, old(Sees()))
      ensures b <==> old(store.up) && Acquirable(old(store.entry), store.now, id)
      ensures b ==> store.entry == Owned(id, store.now + old(seconds) * 1000) && HoldsNow(old(state), old(renewers))
      ensures !b ==> Sees() == old(Sees())
    {
      var ok, err := store.Acquire(id, seconds);
      if err {
        return false;
      }
      if ok {
        SetExpire(LEASE_SECONDS);
        MarkHeld();
        return true;
      }
      return false;
    }

    method Lock() returns (b: bool)
      modifies this, store`entry, store`now
      ensures (Sees(), b) == LockSpec(id, old(Sees()))
      ensures b <==> old(store.up)
      ensures b ==> store.entry == Owned(id, store.now + old(seconds) * 1000) && HoldsNow(old(state), old(renewers))
      ensures b ==>
        (if Acquirable(old(store.entry), old(store.now), id) then store.now == old(store.now)
         else old(store.entry).expiry <= store.now < old(store.entry).expiry + 10
              && (store.now - old(store.now)) % 10 == 0)
      ensures !b ==> Sees() == old(Sees())
    {
      var ok, err := store.Acquire(id, seconds);
      ghost var was := old(Sees());
      ghost var polls := 0;
      while !err && !ok
        invariant store.up == was.up && err == !was.up
        invariant err ==> Sees() == was && !ok
        invariant !err && !ok ==>
          && Sees() == was.(now := was.now + POLL_MS * polls)
          && !Acquirable(was.entry, store.now, id)
        invariant !err && ok ==>
          && polls == Polls(id, was)
          && Sees() == was.(now := was.now + POLL_MS * polls, entry := Leased(id, store.now, was.seconds))
          && Acquirable(was.entry, store.now, id)
        decreases if err || ok then 0 else 1 + was.entry.expiry - store.now
      {
        store.Sleep(POLL_MS);
        polls := polls + 1;
        ok, err := store.Acquire(id, seconds);
      }
      if err {
        return false;
      }
      SetExpire(LEASE_SECONDS);
      MarkHeld();
      return true;
    }

    method LockWithContext(deadline: Option<nat>) returns (b: bool)
      modifies this, store`entry, store`now
      ensures (Sees(), b) == LockWithContextSpec(id, old(Sees()), deadline)
      ensures b <==> deadline.Some? && old(store.up) && Acquirable(old(store.entry), old(store.now), id)
      ensures b ==> store.now == old(store.now) && store.entry == Owned(id, store.now + 60_000)
      ensures b ==> HoldsNow(old(state), old(renewers))
      ensures !b ==> store.entry == old(store.entry) && state == old(state) && renewers == old(renewers)
      ensures !b ==> seconds == if deadline.None? then old(seconds) else 60
      ensures !b ==>
        store.now ==
          (if deadline.Some? && store.up && old(store.now) < deadline.value then deadline.value else old(store.now))
    {
      if deadline.None? {
        return false;
      }
      SetExpire(LEASE_SECONDS);
      var ok, err := store.Acquire(id, seconds);
      if err {
        return false;
      }
      if ok {
        MarkHeld();
        return true;
      }
      // The select has one case, so the call can only end by the context ending.
      if store.now < deadline.value {
        store.Sleep(deadline.value - store.now);
      }
      return false;
    }

    method Unlock() returns (b: bool)
      modifies this`state, store`entry
      ensures (Sees(), b) == UnlockSpec(id, old(Sees()))
      ensures b <==> store.up && Owns(old(store.entry), store.now, id)
      ensures b ==> store.entry == Free && state == 0
      ensures !b ==> store.entry == old(store.entry) && state == old(state)
    {
      var ok, err := store.Release(id);
      if err {
        return false;
      }
      if ok {
        state := 0;
        return true;
      }
      return false;
    }

    /** What passes while the wrapped function runs and nobody else comes near the key. */
    method Run(pauses: seq<nat>)
      modifies store`entry, store`now
      ensures Sees() == Runs(id, old(Sees()), pauses)
    {
      for i := 0 to |pauses|
        invariant Runs(id, Sees(), pauses[i..]) == Runs(id, old(Sees()), pauses)
      {
        store.Sleep(pauses[i]);
        if i + 1 < |pauses| {
          var _ := Turn();
        }
        assert pauses[i..][1..] == pauses[i + 1..];
      }
    }

    /** `fails` is the wrapped function's result. */
    method LockFunc(pauses: seq<nat>, fails: bool) returns (ran: bool, err: bool)
      modifies this, store`entry, store`now
      ensures (Sees(), ran, err) == GuardedSpec(id, LockSpec(id, old(Sees())), pauses, fails)
      ensures ran == old(store.up) && err == (!ran || fails)
      ensures !ran ==> Sees() == old(Sees())
    {
      ran := Lock();
      err := true;
      if ran {
        Run(pauses);
        err := fails;
      }
      var _ := Unlock();
    }

    method LockFuncWithContext(deadline: Option<nat>, pauses: seq<nat>, fails: bool) returns (ran: bool, err: bool)
      modifies this, store`entry, store`now
      ensures (Sees(), ran, err) == GuardedSpec(id, LockWithContextSpec(id, old(Sees()), deadline), pauses, fails)
      ensures ran == (deadline.Some? && old(store.up) && Acquirable(old(store.entry), old(store.now), id))
      ensures err == (!ran || fails)
    {
      ran := LockWithContext(deadline);
      err := true;
      if ran {
        Run(pauses);
        err := fails;
      }
      var _ := Unlock();
    }

    method TryLockFunc(pauses: seq<nat>, fails: bool) returns (ran: bool, err: bool)
      modifies this, store`entry, store`now
      ensures (Sees(), ran, err) == GuardedSpec(id, TryLockSpec(id, old(Sees())), pauses, fails)
      ensures ran == (old(store.up) && Acquirable(old(store.entry), old(store.now), id))
      ensures err == (!ran || fails)
      ensures !ran ==> Sees() == old(Sees())
    {
      ran := TryLock();
      err := true;
      if ran {
        Run(pauses);
        err := fails;
      }
      var _ := Unlock();
    }

    method Turn() returns (again: bool)
      modifies store`entry
      ensures (Sees(), again) == TurnSpec(id, old(Sees()))
      ensures again <==> state == 1 && store.up && Acquirable(old(store.entry), store.now, id)
      ensures store.entry == if again then Owned(id, store.now + seconds * 1000) else old(store.entry)
    {
      if state != 1 {
        return false;
      }
      var ok, _ := store.Acquire(id, seconds);
      return ok;
    }

    /** One iteration of the loop in `renewLock`. */
    method Renew() returns (again: bool)
      modifies store`now, store`entry
      ensures (Sees(), again) == RenewSpec(id, old(Sees()))
      ensures store.now == old(store.now) + 50_000
      ensures again <==> state == 1 && store.up && Acquirable(old(store.entry), store.now, id)
      ensures store.entry == if again then Owned(id, store.now + seconds * 1000) else old(store.entry)
    {
      store.Sleep(RENEW_MS);
      again := Turn();
    }
  }

  /** `Lock` takes the key at the first poll at which the foreign lease is over, and no earlier. */
  lemma LockWaitsOutTheLease(id: LockId, v: View)
    requires v.up
    ensures LockSpec(id, v).1
    ensures var t := LockSpec(id, v).0.now;
      if Acquirable(v.entry, v.now, id) then t == v.now else v.entry.expiry <= t < v.entry.expiry + POLL_MS
  {
  }

  /**
   The documentation says LockWithContext keeps trying until the deadline (readme.md:1041). The
   code does not: it succeeds if and only if the key can be had at the moment of the call,
   however early the other holder's lease ends.
   */
  lemma LockWithContextTriesOnce(id: LockId, v: View, deadline: nat)
    requires v.up
    ensures LockWithContextSpec(id, v, Some(deadline)).1 <==> Acquirable(v.entry, v.now, id)
    ensures v.entry.Owned? && v.entry.owner != id && v.now < v.entry.expiry < deadline ==>
      !LockWithContextSpec(id, v, Some(deadline)).1 && LockSpec(id, v).1
  {
  }

  /**
   With a store that errs every lock call fails, and neither it nor an Unlock touches key, flag
   or renewers; a renewer's turn is its last.
   */
  lemma ErrorsFailSafe(id: LockId, v: View, deadline: Option<nat>)
    requires !v.up
    ensures TryLockSpec(id, v) == (v, false) && LockSpec(id, v) == (v, false) && UnlockSpec(id, v) == (v, false)
    ensures LockWithContextSpec(id, v, deadline) == (if deadline.None? then v else v.(seconds := 60), false)
    ensures TurnSpec(id, v) == (v, false) && RenewSpec(id, v) == (v.(now := v.now + 50_000), false)
  {
  }

  /** A lock call that succeeds owns the key, for as long as the old value says or, with a context, for 60 seconds. */
  lemma SuccessOwnsTheKey(id: LockId, v: View, deadline: nat)
    ensures TryLockSpec(id, v).1 ==> v.up && TryLockSpec(id, v).0.entry == Owned(id, v.now + v.seconds * 1000)
    ensures LockSpec(id, v).1 ==>
      v.up && LockSpec(id, v).0.entry == Owned(id, LockSpec(id, v).0.now + v.seconds * 1000)
    ensures LockWithContextSpec(id, v, Some(deadline)).1 ==>
      v.up && LockWithContextSpec(id, v, Some(deadline)).0.entry == Owned(id, v.now + 60_000)
  {
  }

  /** Whatever the outcome of the lock call, the deferred Unlock never frees another lock's key. */
  lemma UnlockSparesOtherOwners(id: LockId, other: LockId, v: View)
    requires id != other && Owns(v.entry, v.now, other)
    ensures UnlockSpec(id, v) == (v, false)
    ensures UnlockSpec(id, TryLockSpec(id, v).0) == (v, false)
  {
  }

  /** Nested locks through one object are not counted: the inner Unlock already frees the key. */
  lemma InnerUnlockEndsTheOuterHold(id: LockId, other: LockId, v: View)
    requires v.up && Acquirable(v.entry, v.now, id)
    ensures var once := TryLockSpec(id, v);
      var twice := TryLockSpec(id, once.0);
      var released := UnlockSpec(id, twice.0);
      once.1 && twice.1 && released.1 && !released.0.held && TryLockSpec(other, released.0).1
  {
  }

  // ---------------------------------------------------------------------------------------
  // What the wrappers leave behind
  // ---------------------------------------------------------------------------------------

  /** The key is this object's under a full lease that has just begun, and its flag is up. */
  predicate JustRenewed(id: LockId, v: View) {
    v.up && v.held && v.seconds == LEASE_SECONDS && v.entry == Owned(id, v.now + LEASE_MS)
  }

  /** While an object's renewer is alive, no two turns are further apart than its sleep. */
  predicate ShortPauses(pauses: seq<nat>) {
    forall i :: 0 <= i < |pauses| ==> pauses[i] <= RENEW_MS
  }

  lemma {:induction false} RenewedRuns(id: LockId, v: View, pauses: seq<nat>)
    requires JustRenewed(id, v) && ShortPauses(pauses) && pauses != []
    ensures var w := Runs(id, v, pauses);
      w.up && w.held && w.seconds == LEASE_SECONDS && Owns(w.entry, w.now, id) && w.renewers == v.renewers
    decreases |pauses|
  {
    if |pauses| > 1 {
      RenewedRuns(id, TurnSpec(id, Later(v, pauses[0])).0, pauses[1..]);
    }
  }

  /** What a wrapper leaves once its lock call has gone through at `start` with a lease of `seconds`. */
  predicate LeavesFree(w: View) {
    w.entry.Free? && !w.held
  }

  predicate LeavesExpired(id: LockId, start: nat, seconds: nat, w: View) {
    w.held && w.entry == Leased(id, start, seconds) && w.entry.expiry <= w.now
  }

  lemma LockedRuns(id: LockId, v: View, start: nat, seconds: nat, pauses: seq<nat>)
    requires v.up && v.held && v.seconds == LEASE_SECONDS && v.now == start && v.entry == Leased(id, start, seconds)
    requires pauses != [] && ShortPauses(pauses[1..])
    ensures var w := UnlockSpec(id, Runs(id, v, pauses)).0;
      if |pauses| > 1 || pauses[0] < seconds * MILLIS then LeavesFree(w)
      else LeavesExpired(id, start, seconds, w)
  {
    if |pauses| > 1 {
      RenewedRuns(id, TurnSpec(id, Later(v, pauses[0])).0, pauses[1..]);
    }
  }

  /**
   TryLockFunc: the deferred Unlock frees the key if and only if the function ends within the
   first lease, which still has the old expire value, or a renewer has had a turn by then. If
   not, the flag stays up on a key that is no longer owned.
   */
  lemma TryLockFuncUnlocks(id: LockId, v: View, pauses: seq<nat>, fails: bool)
    requires v.up && pauses != [] && ShortPauses(pauses[1..])
    ensures var (w, ran, err) := GuardedSpec(id, TryLockSpec(id, v), pauses, fails);
      && ran == Acquirable(v.entry, v.now, id) && err == (ran ==> fails)
      && (!ran ==> w == v)
      && (ran ==>
            && (LeavesFree(w) <==> |pauses| > 1 || pauses[0] < v.seconds * MILLIS)
            && (LeavesFree(w) || LeavesExpired(id, v.now, v.seconds, w)))
  {
    if Acquirable(v.entry, v.now, id) {
      LockedRuns(id, TryLockSpec(id, v).0, v.now, v.seconds, pauses);
    }
  }

  /** LockFunc: it always runs, from the poll at which it gets the key, and then like TryLockFunc. */
  lemma LockFuncUnlocks(id: LockId, v: View, pauses: seq<nat>, fails: bool)
    requires v.up && pauses != [] && ShortPauses(pauses[1..])
    ensures var (w, ran, err) := GuardedSpec(id, LockSpec(id, v), pauses, fails);
      && ran && err == fails
      && (LeavesFree(w) <==> |pauses| > 1 || pauses[0] < v.seconds * MILLIS)
      && (LeavesFree(w) || LeavesExpired(id, LockSpec(id, v).0.now, v.seconds, w))
  {
    LockWaitsOutTheLease(id, v);
    TryLockFuncUnlocks(id, LockStart(id, v), pauses, fails);
  }

  /**
   LockFuncWithContext sets a full lease first, so with a deadline it frees the key unless the
   function outlasts that lease without a renewer's turn. Without a deadline the function does
   not run, and the deferred Unlock takes the key from an outer hold of the same object.
   */
  lemma LockFuncWithContextUnlocks(id: LockId, v: View, deadline: Option<nat>, pauses: seq<nat>, fails: bool)
    requires v.up && pauses != [] && ShortPauses(pauses[1..])
    ensures var (w, ran, err) := GuardedSpec(id, LockWithContextSpec(id, v, deadline), pauses, fails);
      && ran == (deadline.Some? && Acquirable(v.entry, v.now, id)) && err == (ran ==> fails)
      && (ran ==> (LeavesFree(w) <==> |pauses| > 1 || pauses[0] < LEASE_MS))
      && (deadline.Some? && !ran ==> w.entry == v.entry && w.held == v.held)
      && (deadline.None? ==> (w == v <==> !Owns(v.entry, v.now, id)))
      && (deadline.None? && Owns(v.entry, v.now, id) ==> LeavesFree(w))
  {
    if deadline.Some? && Acquirable(v.entry, v.now, id) {
      LockedRuns(id, LockWithContextSpec(id, v, deadline).0, v.now, LEASE_SECONDS, pauses);
    } else if deadline.Some? {
      ForeignUntilDeadline(id, v, deadline.value);
    }
  }

  /** Waiting for the context to end does not make a foreign key one's own. */
  lemma ForeignUntilDeadline(id: LockId, v: View, deadline: nat)
    requires v.up && !Acquirable(v.entry, v.now, id)
    ensures var w := LockWithContextSpec(id, v, Some(deadline)).0;
      UnlockSpec(id, w) == (w, false) && w.entry == v.entry && w.held == v.held
  {
  }

  // ---------------------------------------------------------------------------------------
  // A call whose renewer is the only one
  // ---------------------------------------------------------------------------------------

  /** The pauses of a function of `d` milliseconds, if the one renewer was started with it. */
  function Cut(d: nat): (pauses: seq<nat>)
    ensures pauses != []
  {
    if d < RENEW_MS then [d] else [RENEW_MS] + Cut(d - RENEW_MS)
  }

  lemma {:induction false} CutIsShort(d: nat)
    ensures ShortPauses(Cut(d)) && ShortPauses(Cut(d)[1..])
    ensures |Cut(d)| > 1 <==> d >= RENEW_MS
    decreases d
  {
    if d >= RENEW_MS {
      CutIsShort(d - RENEW_MS);
      assert Cut(d)[1..] == Cut(d - RENEW_MS);
    }
  }

  /**
   The pauses of a function of `d` milliseconds, through an object that had no renewer before: a
   call that finds the flag up starts none either.
   */
  function Alone(v: View, d: nat): (pauses: seq<nat>)
    ensures pauses != []
  {
    if v.held then [d] else Cut(d)
  }

  /**
   LockFuncWithContext then frees the key unless it finds the flag up and the function outlasts
   the lease; the others if and only if the function ends within the first lease, or a renewer
   was started and has its turn first.
   */
  lemma OneRenewerUnlocks(id: LockId, v: View, d: nat, deadline: nat, fails: bool)
    requires v.up && Acquirable(v.entry, v.now, id)
    ensures LeavesFree(GuardedSpec(id, LockWithContextSpec(id, v, Some(deadline)), Alone(v, d), fails).0)
      <==> !v.held || d < LEASE_MS
    ensures LeavesFree(GuardedSpec(id, TryLockSpec(id, v), Alone(v, d), fails).0)
      <==> d < v.seconds * MILLIS || (!v.held && d >= RENEW_MS)
    ensures LeavesFree(GuardedSpec(id, LockSpec(id, v), Alone(v, d), fails).0)
      <==> d < v.seconds * MILLIS || (!v.held && d >= RENEW_MS)
  {
    CutIsShort(d);
    LockFuncWithContextUnlocks(id, v, Some(deadline), Alone(v, d), fails);
    TryLockFuncUnlocks(id, v, Alone(v, d), fails);
    LockFuncUnlocks(id, v, Alone(v, d), fails);
  }

  /** The view after `n` iterations of a renewer. */
  function Renewed(id: LockId, v: View, n: nat): View {
    if n == 0 then v else RenewSpec(id, Renewed(id, v, n - 1)).0
  }

  lemma {:induction false} RenewedForever(id: LockId, v: View, n: nat)
    requires JustRenewed(id, v)
    ensures JustRenewed(id, Renewed(id, v, n))
  {
    if n > 0 {
      RenewedForever(id, v, n - 1);
    }
  }

  /**
   Otherwise the renewer it started keeps the key for ever: from its first turn on, through any number of
   turns and at every moment before the next, no other object can lock. This is what a wrapper
   on a new object, whose first lease is nothing, leaves behind.
   */
  lemma ExpiredWrapperKeepsTheKey(id: LockId, v: View, d: nat, fails: bool, n: nat, wait: nat, other: LockId)
    requires v.up && !v.held && Acquirable(v.entry, v.now, id) && v.seconds * MILLIS <= d < RENEW_MS
    requires wait <= RENEW_MS && other != id
    ensures var w := GuardedSpec(id, TryLockSpec(id, v), Alone(v, d), fails).0;
      var (first, again) := TurnSpec(id, Later(w, RENEW_MS - d));
      var x := Later(Renewed(id, first, n), wait);
      && again && x.held && Owns(x.entry, x.now, id)
      && !TryLockSpec(other, x).1 && !LockWithContextSpec(other, x, Some(x.now)).1
  {
    CutIsShort(d);
    TryLockFuncUnlocks(id, v, Alone(v, d), fails);
    var w := GuardedSpec(id, TryLockSpec(id, v), Alone(v, d), fails).0;
    RenewedForever(id, TurnSpec(id, Later(w, RENEW_MS - d)).0, n);
  }
}

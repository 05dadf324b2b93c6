/**
 The turns of a job that runs under TryLockFunc with a new lock object each time: the outbox and
 dead-message retry jobs and the purge (rabbitmq/rabbitmq.go). One process, and a store that
 answers; what a turn may leave behind is a renewer that keeps the key.
 */
module JobTurns {
  import opened Common
  import opened RedisLock

  /** The renewer of an earlier turn's object whose flag is still up, and when it next wakes. */
  datatype Keeper = Keeper(id: LockId, wake: nat)

  datatype Job = Job(now: nat, entry: Entry, keeper: Option<Keeper>)

  const INIT := Job(0, Free, None)

  /** Time passes between turns, and the keeper has its own. */
  function Pass(w: Job, ms: nat): Job
    decreases match w.keeper case None => 0 case Some(k) => if k.wake <= w.now + ms then 1 + w.now + ms - k.wake else 0
  {
    if w.keeper.None? || w.keeper.value.wake > w.now + ms then w.(now := w.now + ms)
    else
      var k := w.keeper.value;
      var at := if k.wake < w.now then w.now else k.wake;
      var (v, again) := TurnSpec(k.id, View(at, w.entry, true, true, LEASE_SECONDS, 1));
      Pass(Job(at, v.entry, if again then Some(Keeper(k.id, at + RENEW_MS)) else None), w.now + ms - at)
  }

  /** One turn: TryLockFunc through a new object, for a function of `d` milliseconds; and whether it ran. */
  function Turn(w: Job, id: LockId, seconds: nat, d: nat): (Job, bool) {
    var v := View(w.now, w.entry, true, false, seconds, 0);
    var (v', ran, _) := GuardedSpec(id, TryLockSpec(id, v), Alone(v, d), false);
    (Job(v'.now, v'.entry, if ran && v'.held then Some(Keeper(id, w.now + RENEW_MS)) else w.keeper), ran)
  }

  /** The state at the start of the turn after those of durations `ds`; each turn sleeps `gap` first. */
  function After(gap: nat, seconds: nat, ds: seq<nat>): Job {
    if ds == [] then Pass(INIT, gap)
    else
      var n := |ds| - 1;
      Pass(Turn(After(gap, seconds, ds[..n]), n, seconds, ds[n]).0, gap)
  }

  /** The turn after those of durations `ds` gets the lock. */
  predicate Gets(gap: nat, seconds: nat, ds: seq<nat>) {
    Turn(After(gap, seconds, ds), |ds|, seconds, 0).1
  }

  /** A turn that outlasts its first lease and ends before the first renewal. */
  predicate Overlong(seconds: nat, d: nat) {
    seconds * MILLIS <= d < RENEW_MS
  }

  predicate NoneOverlong(seconds: nat, ds: seq<nat>) {
    forall j :: 0 <= j < |ds| ==> !Overlong(seconds, ds[j])
  }

  /** The key is a keeper's, an object of the first `n` turns, under a lease that outlasts its sleep. */
  predicate Kept(w: Job, n: nat) {
    && w.keeper.Some? && w.keeper.value.id < n && w.now < w.keeper.value.wake
    && w.entry == Owned(w.keeper.value.id, w.keeper.value.wake + LEASE_MS - RENEW_MS)
  }

  lemma {:induction false} KeptPasses(w: Job, ms: nat, n: nat)
    requires Kept(w, n)
    ensures Kept(Pass(w, ms), n)
    decreases w.now + ms - w.keeper.value.wake
  {
    var k := w.keeper.value;
    if k.wake <= w.now + ms {
      var next := Job(k.wake, Leased(k.id, k.wake, LEASE_SECONDS), Some(Keeper(k.id, k.wake + RENEW_MS)));
      KeptPasses(next, w.now + ms - k.wake, n);
    }
  }

  /** The keeper's first turn takes the key it left to expire. */
  lemma ExpiredPasses(w: Job, ms: nat, n: nat)
    requires w.keeper.Some? && w.keeper.value.id < n && w.now < w.keeper.value.wake <= w.now + ms
    requires w.entry.Owned? && w.entry.owner == w.keeper.value.id
    ensures Kept(Pass(w, ms), n)
  {
    var k := w.keeper.value;
    var next := Job(k.wake, Leased(k.id, k.wake, LEASE_SECONDS), Some(Keeper(k.id, k.wake + RENEW_MS)));
    KeptPasses(next, w.now + ms - k.wake, n);
  }

  lemma FreeTurn(w: Job, id: LockId, seconds: nat, d: nat)
    requires w.entry.Free? && w.keeper.None?
    ensures var (w', ran) := Turn(w, id, seconds, d);
      && ran
      && (if Overlong(seconds, d) then
            w'.keeper == Some(Keeper(id, w.now + RENEW_MS)) && w'.now == w.now + d
            && w'.entry.Owned? && w'.entry.owner == id
          else w'.entry.Free? && w'.keeper.None?)
  {
    var v := View(w.now, w.entry, true, false, seconds, 0);
    CutIsShort(d);
    OneRenewerUnlocks(id, v, d, 0, false);
    TryLockFuncUnlocks(id, v, Alone(v, d), false);
  }

  lemma KeptTurn(w: Job, id: LockId, seconds: nat, d: nat)
    requires Kept(w, id)
    ensures Turn(w, id, seconds, d) == (w, false)
  {
  }

  lemma {:induction false} TurnsSoFar(gap: nat, seconds: nat, ds: seq<nat>)
    requires gap >= RENEW_MS
    ensures var w := After(gap, seconds, ds);
      if NoneOverlong(seconds, ds) then w.entry.Free? && w.keeper.None? else Kept(w, |ds|)
  {
    if ds != [] {
      var n := |ds| - 1;
      TurnsSoFar(gap, seconds, ds[..n]);
      var w := After(gap, seconds, ds[..n]);
      assert forall j :: 0 <= j < n ==> ds[..n][j] == ds[j];
      if NoneOverlong(seconds, ds[..n]) {
        FreeTurn(w, n, seconds, ds[n]);
        if Overlong(seconds, ds[n]) {
          ExpiredPasses(Turn(w, n, seconds, ds[n]).0, gap, |ds|);
        }
      } else {
        KeptTurn(w, n, seconds, ds[n]);
        KeptPasses(w, gap, |ds|);
      }
    }
  }

  /**
   A turn gets the lock if and only if no earlier turn outlasted its first lease and ended before
   the first renewal; after one that did, no turn ever does.
   */
  lemma TurnRunsExactlyAfterNoneOverlong(gap: nat, seconds: nat, ds: seq<nat>)
    requires gap >= RENEW_MS
    ensures Gets(gap, seconds, ds) <==> NoneOverlong(seconds, ds)
  {
    TurnsSoFar(gap, seconds, ds);
    var w := After(gap, seconds, ds);
    if NoneOverlong(seconds, ds) {
      FreeTurn(w, |ds|, seconds, 0);
    } else {
      KeptTurn(w, |ds|, seconds, 0);
    }
  }

  /** So a job keeps its turns, whatever they last, if and only if a new object's lease lasts to the renewal. */
  lemma EveryTurnRunsExactlyWithALongLease(gap: nat, seconds: nat)
    requires gap >= RENEW_MS
    ensures (forall ds :: Gets(gap, seconds, ds)) <==> seconds * MILLIS >= RENEW_MS
  {
    if seconds * MILLIS >= RENEW_MS {
      forall ds ensures Gets(gap, seconds, ds) {
        TurnRunsExactlyAfterNoneOverlong(gap, seconds, ds);
      }
    } else {
      var ds := [seconds * MILLIS];
      assert Overlong(seconds, ds[0]);
      TurnRunsExactlyAfterNoneOverlong(gap, seconds, ds);
    }
  }
}

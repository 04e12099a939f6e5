/** The mutex of the package syncer, which a call of Sync takes and, unless it fails early, hands to
    the background run that it starts (client/internal/packagessyncer.go).  Any number of calls may
    overlap. */
module SyncLocks {
  datatype Caller = WantsLock | HasLock | Failing | Returning | Returned

  datatype Background = NotStarted | Running | Finished

  /** One call of Sync, with its own done channel; the counts are history. */
  datatype SyncCall = SyncCall(caller: Caller, background: Background, locks: nat, unlocks: nat, closes: nat)

  /** Unlocking a mutex that is not locked is a fatal error. */
  datatype Mutex = Mutex(calls: seq<SyncCall>, locked: bool, fatal: bool)

  datatype LockEvent =
    | Arrive
    | Acquire(i: nat)
    | StartFails(i: nat)    // the statuses cannot be loaded or stored
    | UnlockEarly(i: nat)   // on the way out of a failed call
    | Spawn(i: nat)         // the background run starts, owning the lock
    | Return(i: nat)        // closes the done channel
    | Finish(i: nat)        // the background run ends, and unlocks

  function Unlocked(m: Mutex, i: nat, call: SyncCall): Mutex
    requires i < |m.calls|
  {
    Mutex(m.calls[i := call.(unlocks := call.unlocks + 1)], false, m.fatal || !m.locked)
  }

  function NextMutex(m: Mutex, e: LockEvent): Mutex {
    if e == Arrive then m.(calls := m.calls + [SyncCall(WantsLock, NotStarted, 0, 0, 0)])
    else if e.i >= |m.calls| then m
    else
      var call := m.calls[e.i];
      match e
      case Acquire(i) =>
        if call.caller == WantsLock && !m.locked
        then m.(calls := m.calls[i := call.(caller := HasLock, locks := call.locks + 1)], locked := true) else m
      case StartFails(i) =>
        if call.caller == HasLock then m.(calls := m.calls[i := call.(caller := Failing)]) else m
      case UnlockEarly(i) =>
        if call.caller == Failing then Unlocked(m, i, call.(caller := Returning)) else m
      case Spawn(i) =>
        if call.caller == HasLock
        then m.(calls := m.calls[i := call.(caller := Returning, background := Running)]) else m
      case Return(i) =>
        if call.caller == Returning
        then m.(calls := m.calls[i := call.(caller := Returned, closes := call.closes + 1)]) else m
      case Finish(i) =>
        if call.background == Running then Unlocked(m, i, call.(background := Finished)) else m
  }

  function AfterLocks(es: seq<LockEvent>): Mutex {
    if es == [] then Mutex([], false, false) else NextMutex(AfterLocks(es[..|es| - 1]), es[|es| - 1])
  }

  predicate Holds(call: SyncCall) {
    call.caller == HasLock || call.caller == Failing || call.background == Running
  }

  predicate CallOk(call: SyncCall) {
    && call.locks == (if call.caller == WantsLock then 0 else 1)
    && call.unlocks == (if call.caller == WantsLock || Holds(call) then 0 else 1)
    && call.closes == (if call.caller == Returned then 1 else 0)
    && (call.background != NotStarted ==> call.caller == Returning || call.caller == Returned)
  }

  ghost predicate LockInv(m: Mutex) {
    && !m.fatal
    && (forall i :: 0 <= i < |m.calls| ==> CallOk(m.calls[i]))
    && (forall i :: 0 <= i < |m.calls| && Holds(m.calls[i]) ==> m.locked)
    && (forall i, j :: 0 <= i < j < |m.calls| ==> !Holds(m.calls[i]) || !Holds(m.calls[j]))
    && (m.locked ==> exists i :: 0 <= i < |m.calls| && Holds(m.calls[i]))
  }

  /** A step of call `i` keeps the invariant if the lock moves with the holder. */
  lemma CallStep(m: Mutex, n: Mutex, i: nat)
    requires LockInv(m) && i < |m.calls| == |n.calls| && n.calls == m.calls[i := n.calls[i]]
    requires CallOk(n.calls[i]) && !n.fatal
    requires Holds(n.calls[i]) == Holds(m.calls[i]) ==> n.locked == m.locked
    requires Holds(n.calls[i]) && !Holds(m.calls[i]) ==> n.locked && !m.locked
    requires !Holds(n.calls[i]) && Holds(m.calls[i]) ==> !n.locked
    ensures LockInv(n)
  {
    if n.locked && m.locked {
      var holder :| 0 <= holder < |m.calls| && Holds(m.calls[holder]);
      assert Holds(n.calls[holder]);
    }
  }

  lemma LockStep(m: Mutex, e: LockEvent)
    requires LockInv(m)
    ensures LockInv(NextMutex(m, e))
  {
    var n := NextMutex(m, e);
    if e == Arrive {
      if m.locked {
        var holder :| 0 <= holder < |m.calls| && Holds(m.calls[holder]);
        assert Holds(n.calls[holder]);
      }
    } else if n != m {
      assert CallOk(m.calls[e.i]);
      CallStep(m, n, e.i);
    }
  }

  lemma {:induction false} LocksRun(es: seq<LockEvent>)
    ensures LockInv(AfterLocks(es))
  {
    if es != [] {
      LocksRun(es[..|es| - 1]);
      LockStep(AfterLocks(es[..|es| - 1]), es[|es| - 1]);
    }
  }

  /** Main result: however calls overlap, no two background runs work at once, none works while a
      caller prepares, and every lock is released exactly once: by the caller if it fails early, by
      the background run otherwise.  The done channel says that the caller returned, no more. */
  lemma OneSyncAtATime(es: seq<LockEvent>)
    ensures var m := AfterLocks(es);
            && !m.fatal
            && (forall i, j :: 0 <= i < j < |m.calls| ==> !(Holds(m.calls[i]) && Holds(m.calls[j])))
            && (m.locked <==> exists i :: 0 <= i < |m.calls| && Holds(m.calls[i]))
            && forall i :: 0 <= i < |m.calls| ==>
                 && m.calls[i].unlocks <= m.calls[i].locks <= 1 && m.calls[i].closes <= 1
                 && (m.calls[i].closes == 1 <==> m.calls[i].caller == Returned)
                 && (m.calls[i].caller == Returned && m.calls[i].background != Running ==> m.calls[i].unlocks == 1)
  {
    LocksRun(es);
  }

  /** Done is closed while the background run still works. */
  lemma DoneBeforeFinished()
    ensures var m := AfterLocks([Arrive, Acquire(0), Spawn(0), Return(0)]);
            |m.calls| == 1 && m.calls[0].closes == 1 && m.calls[0].background == Running && m.locked
  {
    var e0, e1, e2, e3 := Arrive, Acquire(0), Spawn(0), Return(0);
    assert [e0, e1, e2, e3][..3] == [e0, e1, e2] && [e0, e1, e2][..2] == [e0, e1];
    assert [e0, e1][..1] == [e0] && [e0][..0] == [];
    assert AfterLocks([]) == Mutex([], false, false);
    assert AfterLocks([e0]) == NextMutex(AfterLocks([]), e0);
    assert AfterLocks([e0, e1]) == NextMutex(AfterLocks([e0]), e1);
    assert AfterLocks([e0, e1, e2]) == NextMutex(AfterLocks([e0, e1]), e2);
  }

  // ---- No call waits for ever ----------------------------------------------------------------------

  predicate Over(call: SyncCall) {
    call.caller == Returned && call.background != Running
  }

  lemma {:induction false} LocksSnoc(es: seq<LockEvent>, e: LockEvent)
    ensures AfterLocks(es + [e]) == NextMutex(AfterLocks(es), e)
  {
    assert (es + [e])[..|es|] == es;
  }

  /** Whoever has the mutex releases it. */
  lemma {:induction false} MutexIsReleased(es: seq<LockEvent>) returns (more: seq<LockEvent>)
    ensures es <= more && !AfterLocks(more).locked && |AfterLocks(more).calls| == |AfterLocks(es).calls|
  {
    LocksRun(es);
    more := es;
    var m := AfterLocks(es);
    if m.locked {
      var i :| 0 <= i < |m.calls| && Holds(m.calls[i]);
      if m.calls[i].caller == HasLock {
        LocksSnoc(more, StartFails(i));
        more := more + [StartFails(i)];
      }
      var e := if AfterLocks(more).calls[i].caller == Failing then UnlockEarly(i) else Finish(i);
      LocksSnoc(more, e);
      more := more + [e];
    }
  }

  /** Call `i` does `e`, and all others are as they were. */
  ghost predicate Only(m: Mutex, n: Mutex, i: nat) {
    i < |m.calls| == |n.calls| && n.calls == m.calls[i := n.calls[i]]
  }

  /** A call that finds the mutex free is over some steps later, and the mutex is free again. */
  lemma {:induction false} CallEnds(es: seq<LockEvent>, i: nat) returns (more: seq<LockEvent>)
    requires i < |AfterLocks(es).calls| && !AfterLocks(es).locked
    ensures es <= more
    ensures var m, n := AfterLocks(es), AfterLocks(more); Only(m, n, i) && Over(n.calls[i]) && !n.locked
  {
    LocksRun(es);
    more := es;
    var call := AfterLocks(es).calls[i];
    assert CallOk(call) && !Holds(call);
    if call.caller == WantsLock {
      LocksSnoc(more, Acquire(i));
      more := more + [Acquire(i)];
      LocksSnoc(more, Spawn(i));
      more := more + [Spawn(i)];
      LocksSnoc(more, Finish(i));
      more := more + [Finish(i)];
    }
    if call.caller != Returned {
      LocksSnoc(more, Return(i));
      more := more + [Return(i)];
    }
  }

  /** Main result: every run of any calls can go on, without another call, until all of them are over
      and the mutex is free. */
  lemma {:induction false} AllCallsCanEnd(es: seq<LockEvent>) returns (more: seq<LockEvent>)
    ensures es <= more
    ensures var m, n := AfterLocks(es), AfterLocks(more);
            && |n.calls| == |m.calls| && !n.locked
            && forall i :: 0 <= i < |n.calls| ==> Over(n.calls[i])
  {
    more := MutexIsReleased(es);
    for i := 0 to |AfterLocks(es).calls|
      invariant es <= more && |AfterLocks(more).calls| == |AfterLocks(es).calls| && !AfterLocks(more).locked
      invariant forall j :: 0 <= j < i ==> Over(AfterLocks(more).calls[j])
    {
      more := CallEnds(more, i);
    }
  }
}

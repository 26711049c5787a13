/** The scheduler's fiber hand-off as an object: thread-local storage, the array of free fibers and the
    waiting fibers' flags, updated in place. Each method changes the object as the SchedulerMachine
    step it is named in changes its value. What the queues hold and what task a fiber runs are not touched
    by a switch and are ghost here, like the counts and the other history. */
module FiberSwitching {
  import opened Options
  import opened WaiterList
  import opened WaiterNodes
  import opened SchedulerMachine

  class ThreadLocalStorage {
    var started: Stage
    var CurrentFiberIndex: nat
    var OldFiberIndex: Link
    var OldFiberDestination: Destination
    var OldFiberStoredFlag: WaitingFiberBundle?
    ghost var cleanups: nat

    ghost function Value(): Thread
      reads this
    {
      Thread(started, CurrentFiberIndex, OldFiberIndex, OldFiberDestination,
             if OldFiberStoredFlag == null then None else Some(OldFiberStoredFlag.FiberIndex), cleanups)
    }

    constructor (stage: Stage)
      ensures Value() == Thread(stage, 0, None, Nowhere, None, if stage.Live? then 1 else 0)
    {
      started, CurrentFiberIndex, OldFiberIndex, OldFiberDestination := stage, 0, None, Nowhere;
      OldFiberStoredFlag, cleanups := null, if stage.Live? then 1 else 0;
    }
  }

  // The part of a fiber that is ghost here.
  datatype Past = Past(loc: BundleLoc, job: Link, place: Spot, waits: nat, readied: nat, resumes: nat)

  ghost function FirstValue(t: nat): Thread {
    if t == 0 then Thread(Live, 0, None, Nowhere, None, 1) else Thread(Boot, 0, None, Nowhere, None, 0)
  }

  class TaskScheduler {
    const m_tls: seq<ThreadLocalStorage>
    const m_freeFibers: array<bool>
    const bundles: seq<WaitingFiberBundle>
    var pc: seq<Pc>
    ghost var past: seq<Past>
    ghost var tasks: seq<TaskState>
    ghost var boxes: map<Box, seq<Item>>

    ghost predicate Valid()
      reads this, m_tls
    {
      && m_freeFibers.Length == |bundles| == |pc| == |past|
      && (forall i, j | 0 <= i < j < |m_tls| :: m_tls[i] != m_tls[j])
      && (forall f | 0 <= f < |bundles| :: bundles[f].FiberIndex == f)
      && (forall t | 0 <= t < |m_tls| :: m_tls[t].OldFiberStoredFlag == null || m_tls[t].OldFiberStoredFlag in bundles)
    }

    ghost function FiberAt(f: nat): Fiber
      requires Valid() && f < |pc|
      reads this, m_tls, m_freeFibers, bundles
    {
      Fiber(pc[f], m_freeFibers[f], bundles[f].FiberIsSwitched, bundles[f].PinnedThreadIndex,
            past[f].loc, past[f].job, past[f].place, past[f].waits, past[f].readied, past[f].resumes)
    }

    ghost function Value(): (s: State)
      requires Valid()
      reads this, m_tls, m_freeFibers, bundles
      ensures |s.threads| == |m_tls| && |s.fibers| == |pc| && s.tasks == tasks && s.boxes == boxes
      ensures forall t | 0 <= t < |m_tls| :: s.threads[t] == m_tls[t].Value()
      ensures forall f | 0 <= f < |pc| :: s.fibers[f] == FiberAt(f)
    {
      State(seq(|m_tls|, t requires 0 <= t < |m_tls| reads m_tls => m_tls[t].Value()),
            seq(|pc|, f requires 0 <= f < |pc| && Valid() reads this, m_tls, m_freeFibers, bundles => FiberAt(f)),
            tasks, boxes)
    }

    constructor (threads: nat, fibers: nat, taskCount: nat)
      requires threads >= 1 && fibers >= 1
      ensures Valid() && Value() == Init(threads, fibers, taskCount)
      ensures |m_tls| == threads && m_freeFibers.Length == fibers
      ensures m_tls[0].CurrentFiberIndex == 0 && forall f | 0 <= f < fibers :: m_freeFibers[f] == (f != 0)
    {
      var tls: seq<ThreadLocalStorage> := [];
      for t := 0 to threads
        invariant |tls| == t && forall u | 0 <= u < t :: fresh(tls[u]) && tls[u].OldFiberStoredFlag == null
        invariant forall u, v | 0 <= u < v < t :: tls[u] != tls[v]
        invariant forall u | 0 <= u < t :: tls[u].Value() == FirstValue(u)
      {
        var storage := new ThreadLocalStorage(if t == 0 then Live else Boot);
        tls := tls + [storage];
      }
      var made: seq<WaitingFiberBundle> := [];
      for f := 0 to fibers
        invariant |made| == f && forall g | 0 <= g < f :: fresh(made[g]) && made[g].FiberIndex == g
        invariant forall g | 0 <= g < f :: !made[g].FiberIsSwitched && made[g].PinnedThreadIndex == None
        invariant forall u | 0 <= u < threads :: tls[u].OldFiberStoredFlag == null
        invariant forall u | 0 <= u < threads :: tls[u].Value() == FirstValue(u)
      {
        var bundle := new WaitingFiberBundle(f);
        made := made + [bundle];
      }
      m_tls, bundles := tls, made;
      m_freeFibers := new bool[fibers](i => i > 0);
      pc := seq(fibers, f => if f == 0 then InTask else Fresh);
      past := seq(fibers, f => Past(NoBundle, None, if f == 0 then Current(0) else InPool, 0, 0, 0));
      tasks, boxes := seq(taskCount, _ => TaskState(Unpushed, 0, 0)), map[];
      new;
      assert Value().threads == Init(threads, fibers, taskCount).threads;
      assert Value().fibers == Init(threads, fibers, taskCount).fibers;
    }

    // GetNextFreeFiberIndex's weak compare-exchange on m_freeFibers[r], in SwitchToFreeFiber; it may fail
    // although the fiber is free, when ok is false.
    method ReserveFiber(t: nat, r: nat, ok: bool) returns (reserved: bool)
      requires Valid() && Runs(Value(), t) && Cur(Value(), t).pc.Reserving? && r < |pc|
      modifies this, m_freeFibers
      ensures Valid() && reserved == (ok && old(m_freeFibers[r]))
      ensures Value() == if reserved then ReserveStep(old(Value()), t, r) else old(Value())
      ensures reserved ==> !m_freeFibers[r] && pc[m_tls[t].CurrentFiberIndex] == Leaving(r)
    {
      reserved := ok && m_freeFibers[r];
      if reserved {
        var f := m_tls[t].CurrentFiberIndex;
        m_freeFibers[r] := false;
        past := past[r := past[r].(place := Reserved(t))];
        pc := pc[f := Leaving(r)];
      }
    }

    // The same in ThreadStart, before the thread has run any fiber.
    method ReserveFirstFiber(t: nat, r: nat, ok: bool) returns (reserved: bool)
      requires Valid() && t < |m_tls| && m_tls[t].started.Boot? && r < |pc|
      modifies this, m_freeFibers, m_tls
      ensures Valid() && reserved == (ok && old(m_freeFibers[r]))
      ensures Value() == if reserved then BootReserveStep(old(Value()), t, r) else old(Value())
      ensures reserved ==> !m_freeFibers[r] && m_tls[t].started == BootGot(r)
    {
      reserved := ok && m_freeFibers[r];
      if reserved {
        m_freeFibers[r] := false;
        past := past[r := past[r].(place := Reserved(t))];
        m_tls[t].started := BootGot(r);
      }
    }

    // ThreadStart's switch to the fiber it reserved.
    method StartThread(t: nat)
      requires Valid() && t < |m_tls| && m_tls[t].started.BootGot? && m_tls[t].started.r < |pc|
      modifies this, m_tls
      ensures Valid() && Value() == BootSwitchStep(old(Value()), t)
      ensures m_tls[t].started == Live && m_tls[t].CurrentFiberIndex == old(m_tls[t].started).r
    {
      var tls, freeFiberIndex := m_tls[t], m_tls[t].started.r;
      tls.CurrentFiberIndex := freeFiberIndex;
      tls.started, tls.cleanups := Live, 0;
      past := past[freeFiberIndex := past[freeFiberIndex].(place := Current(t))];
    }

    // m_freeFibers[f].store(true).
    method FreeFiber(f: nat)
      requires Valid() && f < |pc|
      modifies `past, m_freeFibers
      ensures Valid() && Value() == SetFiber(old(Value()), f, old(Value()).fibers[f].(free := true, place := InPool))
      ensures m_freeFibers[f]
    {
      m_freeFibers[f] := true;
      past := past[f := past[f].(place := InPool)];
    }

    // OldFiberStoredFlag->store(true).
    method StoreFlag(bundle: WaitingFiberBundle)
      requires Valid() && bundle in bundles
      modifies `past, bundles
      ensures Valid() && bundle.FiberIndex < |pc|
      ensures var f, s := bundle.FiberIndex, old(Value());
        Value() == SetFiber(s, f, s.fibers[f].(flag := true, place := Parked))
      ensures bundle.FiberIsSwitched
    {
      var f := bundle.FiberIndex;
      assert bundles[f] == bundle;
      bundle.FiberIsSwitched := true;
      past := past[f := past[f].(place := Parked)];
    }

    // CleanUpOldFiber, called first thing wherever a fiber can be switched to.
    method CleanUpOldFiber(t: nat)
      requires Valid() && Runs(Value(), t) && AtResumePoint(Cur(Value(), t).pc)
      requires Inv(Value())
      modifies this, m_tls, m_freeFibers, bundles
      ensures Valid() && Value() == CleanUpStep(old(Value()), t) && Inv(Value())
      ensures m_tls[t].OldFiberDestination == Nowhere && m_tls[t].OldFiberIndex == None
      ensures old(m_tls[t].OldFiberDestination) == ToPool ==>
        var f := old(m_tls[t].OldFiberIndex); f.Some? && f.value < m_freeFibers.Length && m_freeFibers[f.value]
      ensures old(m_tls[t].OldFiberDestination) == ToWaiting ==>
        old(m_tls[t].OldFiberStoredFlag) != null && old(m_tls[t].OldFiberStoredFlag).FiberIsSwitched
    {
      OldFiberIsKnown(Value(), t);
      StepKeepsInv(Value(), CleanUp(t));
      SettleOldFiber(t);
    }

    method SettleOldFiber(t: nat)
      requires Valid() && Runs(Value(), t) && AtResumePoint(Cur(Value(), t).pc)
      requires m_tls[t].OldFiberDestination.ToPool? ==>
        m_tls[t].OldFiberIndex.Some? && m_tls[t].OldFiberIndex.value < |pc|
      requires m_tls[t].OldFiberDestination.ToWaiting? ==> m_tls[t].OldFiberStoredFlag != null
      modifies this, m_tls, m_freeFibers, bundles
      ensures Valid() && Value() == CleanUpStep(old(Value()), t)
      ensures old(m_tls[t].OldFiberDestination) == ToPool ==>
        var f := old(m_tls[t].OldFiberIndex); f.Some? && f.value < m_freeFibers.Length && m_freeFibers[f.value]
      ensures old(m_tls[t].OldFiberDestination) == ToWaiting ==>
        old(m_tls[t].OldFiberStoredFlag) != null && old(m_tls[t].OldFiberStoredFlag).FiberIsSwitched
    {
      ghost var s := Value();
      var resumed := if pc[m_tls[t].CurrentFiberIndex].ParkedOut? then InTask else Looping;
      ReleaseOldFiber(t);
      ReleaseLeavesThreads(s, t);
      ForgetOldFiber(t);
      assert Value() == Forgotten(ReleaseOld(s, s.threads[t]), t);
      Goto(t, resumed);
      CleanUpIsAllThree(s, t);
    }

    method Goto(t: nat, next: Pc)
      requires Valid() && Runs(Value(), t)
      modifies `pc
      ensures Valid() && Value() == CurTo(old(Value()), t, next)
    {
      pc := pc[m_tls[t].CurrentFiberIndex := next];
    }

    method ReleaseOldFiber(t: nat)
      requires Valid() && t < |m_tls|
      requires m_tls[t].OldFiberDestination.ToPool? ==>
        m_tls[t].OldFiberIndex.Some? && m_tls[t].OldFiberIndex.value < |pc|
      requires m_tls[t].OldFiberDestination.ToWaiting? ==> m_tls[t].OldFiberStoredFlag != null
      modifies `past, m_freeFibers, bundles
      ensures Valid() && Value() == ReleaseOld(old(Value()), old(Value()).threads[t])
      ensures old(m_tls[t].OldFiberDestination) == ToPool ==>
        var f := old(m_tls[t].OldFiberIndex); f.Some? && f.value < m_freeFibers.Length && m_freeFibers[f.value]
      ensures old(m_tls[t].OldFiberDestination) == ToWaiting ==>
        old(m_tls[t].OldFiberStoredFlag) != null && old(m_tls[t].OldFiberStoredFlag).FiberIsSwitched
    {
      var tls := m_tls[t];
      match tls.OldFiberDestination {
        case ToPool => FreeFiber(tls.OldFiberIndex.value);
        case ToWaiting => StoreFlag(tls.OldFiberStoredFlag);
        case Nowhere =>
      }
    }

    method ForgetOldFiber(t: nat)
      requires Valid() && t < |m_tls|
      modifies m_tls
      ensures Valid()
      ensures Value() == Forgotten(old(Value()), t)
    {
      var tls := m_tls[t];
      tls.OldFiberDestination, tls.OldFiberIndex, tls.cleanups := Nowhere, None, tls.cleanups + 1;
    }

    // InitWaitingFiberBundle for the current fiber, at the start of a wait.
    method InitWaitingFiberBundle(t: nat, pinToCurrentThread: bool)
      requires Valid() && Runs(Value(), t) && Cur(Value(), t).pc.InTask?
      modifies this, bundles
      ensures Valid() && Value() == InitBundleStep(old(Value()), t, pinToCurrentThread)
      ensures var bundle := bundles[m_tls[t].CurrentFiberIndex];
        && !bundle.FiberIsSwitched && bundle.Next == null
        && bundle.PinnedThreadIndex == if pinToCurrentThread then Some(t) else None
    {
      var f := m_tls[t].CurrentFiberIndex;
      var bundle := bundles[f];
      bundle.FiberIsSwitched := false;
      bundle.Next := null;
      bundle.PinnedThreadIndex := if pinToCurrentThread then Some(t) else None;
      past := past[f := past[f].(loc := Registered, waits := past[f].waits + 1)];
      pc := pc[f := Parking];
    }

    // SwitchToFreeFiber, once it has reserved one.
    method SwitchToFreeFiber(t: nat)
      requires Valid() && Runs(Value(), t) && Cur(Value(), t).pc.Leaving? && Cur(Value(), t).pc.r < |pc|
      modifies this, m_tls
      ensures Valid() && Value() == SwitchToFreeStep(old(Value()), t)
      ensures var f, tls := old(m_tls[t].CurrentFiberIndex), m_tls[t];
        && tls.CurrentFiberIndex == old(pc)[f].r && tls.OldFiberIndex == Some(f)
        && tls.OldFiberDestination == ToWaiting && tls.OldFiberStoredFlag == bundles[f]
    {
      ghost var s := Value();
      var tls := m_tls[t];
      var currentFiberIndex, freeFiberIndex := tls.CurrentFiberIndex, pc[tls.CurrentFiberIndex].r;
      tls.OldFiberIndex := Some(currentFiberIndex);
      tls.CurrentFiberIndex := freeFiberIndex;
      tls.OldFiberDestination := ToWaiting;
      tls.OldFiberStoredFlag := bundles[currentFiberIndex];
      tls.cleanups := 0;
      pc := pc[currentFiberIndex := ParkedOut];
      past := past[currentFiberIndex := past[currentFiberIndex].(place := Pending(t))];
      past := past[freeFiberIndex := past[freeFiberIndex].(place := Current(t))];
      assert Value().threads == SwitchToFreeStep(s, t).threads;
      assert Value().fibers == SwitchToFreeStep(s, t).fibers;
    }

    // FiberStartFunc's switch to a ready fiber; its own goes back to the pool.
    method SwitchToReadyFiber(t: nat)
      requires Valid() && Runs(Value(), t) && Cur(Value(), t).pc.Resuming? && Cur(Value(), t).pc.w < |pc|
      modifies this, m_tls
      ensures Valid() && Value() == SwitchToReadyStep(old(Value()), t)
      ensures var f, tls := old(m_tls[t].CurrentFiberIndex), m_tls[t];
        && tls.CurrentFiberIndex == old(pc)[f].w && tls.OldFiberIndex == Some(f)
        && tls.OldFiberDestination == ToPool
    {
      var tls := m_tls[t];
      var currentFiberIndex, waitingFiberIndex := tls.CurrentFiberIndex, pc[tls.CurrentFiberIndex].w;
      tls.OldFiberIndex := Some(currentFiberIndex);
      tls.CurrentFiberIndex := waitingFiberIndex;
      tls.OldFiberDestination := ToPool;
      tls.cleanups := 0;
      pc := pc[currentFiberIndex := SwitchedOut];
      past := past[currentFiberIndex := past[currentFiberIndex].(place := Pending(t))];
      var w := waitingFiberIndex;
      past := past[w := past[w].(loc := NoBundle, place := Current(t), resumes := past[w].resumes + 1)];
    }
  }

  function Forgotten(s: State, t: nat): State
    requires t < |s.threads|
  {
    var th := s.threads[t];
    SetThread(s, t, th.(dest := Nowhere, oldFiber := None, cleanups := th.cleanups + 1))
  }

  lemma ReleaseLeavesThreads(s: State, t: nat)
    requires Runs(s, t)
    ensures var s1 := ReleaseOld(s, s.threads[t]);
      s1.threads == s.threads && Runs(Forgotten(s1, t), t)
  {
  }

  lemma CleanUpIsAllThree(s: State, t: nat)
    requires Runs(s, t) && AtResumePoint(Cur(s, t).pc)
    ensures var s2 := Forgotten(ReleaseOld(s, s.threads[t]).(threads := s.threads), t);
      Runs(s2, t) && CleanUpStep(s, t) == CurTo(s2, t, if Cur(s, t).pc.ParkedOut? then InTask else Looping)
  {
  }

  // A thread with a fiber to clean up after knows which it is.
  lemma OldFiberIsKnown(s: State, t: nat)
    requires Inv(s) && t < |s.threads|
    ensures var th := s.threads[t];
      && (th.dest.ToPool? ==> th.oldFiber.Some? && th.oldFiber.value < |s.fibers|)
      && (th.dest.ToWaiting? ==> th.flag.Some?)
  {
    ThreadFacts(s, t);
    if s.threads[t].oldFiber.Some? { FiberFacts(s, s.threads[t].oldFiber.value); }
  }
}

/** What callers of Fibtex get: where each of lock, try_lock and unlock can end, what they come to when
    run alone, and how often lock spins. */
module FibtexCalls {
  import opened Options
  import opened WaiterList
  import opened FibtexMachine

  // A fiber calls lock or try_lock while it does not hold the lock, and unlock while it does.
  predicate Calls(s: State, a: Action, f: nat) {
    a.Start? && a.f == f && f < |s.pc| && (if a.call.Unlock? then s.pc[f].Holding? else s.pc[f].Out?)
  }

  // The call that fiber f made last in a run.
  function LastCall(s0: State, acts: seq<Action>, f: nat): Option<Call> {
    if acts == [] then None
    else
      var before, a := acts[..|acts| - 1], acts[|acts| - 1];
      if Calls(Exec(s0, before), a, f) then Some(a.call) else LastCall(s0, before, f)
  }

  // Where a fiber can be after that call, Holding and Out being where calls end.
  predicate MayBeAt(call: Option<Call>, pc: Pc) {
    match call
    case None => pc.Out?
    case Some(Lock) => pc.LockFast? || Contends(pc) || InEnqueue(pc) || pc.Parked? || pc.Holding?
    case Some(TryLock) => pc.TryFast? || pc.TryLoad? || pc.TryCas? || pc.Holding? || pc.Out?
    case Some(Unlock) => InUnlock(pc) || pc.Out?
  }

  // lock does not end without the lock; try_lock never queues or parks, and ends with the lock or
  // without; unlock ends without it.
  lemma {:induction false} CallsEndAsPromised(ableToSpin: bool, fibers: nat, acts: seq<Action>, f: nat)
    requires f < fibers
    ensures var s := Exec(Init(ableToSpin, fibers), acts);
      |s.pc| == fibers && MayBeAt(LastCall(Init(ableToSpin, fibers), acts, f), s.pc[f])
  {
    if acts == [] {
    } else {
      var before, a := acts[..|acts| - 1], acts[|acts| - 1];
      CallsEndAsPromised(ableToSpin, fibers, before, f);
      StepStaysInCall(Exec(Init(ableToSpin, fibers), before), a, f, LastCall(Init(ableToSpin, fibers), before, f));
    }
  }

  lemma StepStaysInCall(s: State, a: Action, f: nat, call: Option<Call>)
    requires f < |s.pc| && MayBeAt(call, s.pc[f])
    ensures |Step(s, a).pc| == |s.pc|
    ensures MayBeAt(if Calls(s, a, f) then Some(a.call) else call, Step(s, a).pc[f])
  {
    if a.Run? && a.f < |s.pc| {
      RunChangesOne(s, a.f, a.ok, f);
      if a.f == f { RunStaysInCall(s, f, a.ok, call); }
    }
  }

  lemma RunChangesOne(s: State, g: nat, ok: bool, f: nat)
    requires g < |s.pc| && f < |s.pc|
    ensures |RunStep(s, g, ok).pc| == |s.pc| && (g != f ==> RunStep(s, g, ok).pc[f] == s.pc[f])
  {
    if InEnqueue(s.pc[g]) { assert EnqueueStep(s, g).pc == s.pc[g := EnqueueStep(s, g).pc[g]]; }
    else if InUnlock(s.pc[g]) { assert UnlockStep(s, g, ok).pc == s.pc[g := UnlockStep(s, g, ok).pc[g]]; }
    else { assert LockStep(s, g, ok).pc == s.pc[g := LockStep(s, g, ok).pc[g]]; }
  }

  lemma RunStaysInCall(s: State, f: nat, ok: bool, call: Option<Call>)
    requires f < |s.pc| && MayBeAt(call, s.pc[f])
    ensures |RunStep(s, f, ok).pc| == |s.pc| && MayBeAt(call, RunStep(s, f, ok).pc[f])
  {
    if InEnqueue(s.pc[f]) { EnqueueStaysInCall(s, f); }
    else if InUnlock(s.pc[f]) { UnlockStaysInCall(s, f, ok); }
    else { LockStaysInCall(s, f, ok, call); }
  }

  lemma EnqueueStaysInCall(s: State, f: nat)
    requires f < |s.pc| && InEnqueue(s.pc[f])
    ensures |EnqueueStep(s, f).pc| == |s.pc| && MayBeAt(Some(Lock), EnqueueStep(s, f).pc[f])
  {
  }

  lemma UnlockStaysInCall(s: State, f: nat, ok: bool)
    requires f < |s.pc| && InUnlock(s.pc[f])
    ensures |UnlockStep(s, f, ok).pc| == |s.pc| && MayBeAt(Some(Unlock), UnlockStep(s, f, ok).pc[f])
  {
  }

  lemma LockStaysInCall(s: State, f: nat, ok: bool, call: Option<Call>)
    requires f < |s.pc| && MayBeAt(call, s.pc[f]) && !InEnqueue(s.pc[f]) && !InUnlock(s.pc[f])
    ensures |LockStep(s, f, ok).pc| == |s.pc| && MayBeAt(call, LockStep(s, f, ok).pc[f])
  {
  }

  // ---- Run alone ----

  // Fiber f makes k steps with nobody in between and no spurious failure.
  function Alone(s: State, f: nat, k: nat): State {
    if k == 0 then s else Step(Alone(s, f, k - 1), Run(f, true))
  }

  function Taken(s: State, f: nat): State
    requires f < |s.pc|
  {
    s.(word := s.word.(locked := true), owner := Some(f), pc := s.pc[f := Holding])
  }

  // Made alone, try_lock takes a lock that is free, whoever waits for it, and leaves one that is held
  // as it is.
  lemma TryLockAlone(ableToSpin: bool, fibers: nat, acts: seq<Action>, f: nat)
    requires var s := Exec(Init(ableToSpin, fibers), acts); f < |s.pc| && s.pc[f].Out?
    ensures var s := Exec(Init(ableToSpin, fibers), acts);
      Alone(Step(s, Start(f, TryLock)), f, 3) == if s.word.locked then s else Taken(s, f)
  {
    var s := Exec(Init(ableToSpin, fibers), acts);
    TryLockFrom(s, f);
  }

  lemma TryLockFrom(s: State, f: nat)
    requires f < |s.pc| && s.pc[f].Out?
    ensures Alone(Step(s, Start(f, TryLock)), f, 3) == if s.word.locked then s else Taken(s, f)
  {
    var s0 := Step(s, Start(f, TryLock));
    assert s0 == Goto(s, f, TryFast);
    if s.word == FREE {
      FastTake(s, f, s0);
    } else {
      assert Alone(s0, f, 1) == Goto(s, f, TryLoad);
      if s.word.locked {
        assert Alone(s0, f, 2) == Goto(s, f, Out);
        assert Goto(s, f, Out).pc == s.pc;
      } else {
        assert Alone(s0, f, 2) == Goto(s, f, TryCas(s.word));
      }
    }
  }

  lemma FastTake(s: State, f: nat, s0: State)
    requires f < |s.pc| && s.word == FREE && (s0 == Goto(s, f, LockFast) || s0 == Goto(s, f, TryFast))
    ensures Alone(s0, f, 3) == Taken(s, f)
  {
    assert s0.pc[f := Holding] == s.pc[f := Holding];
    assert Alone(s0, f, 0) == s0;
    assert Alone(s0, f, 1) == Taken(s, f);
    assert Alone(s0, f, 2) == Taken(s, f);
  }

  // Made alone, lock takes a lock that is free, whoever waits for it, and unlock gives it back.
  lemma LockAlone(ableToSpin: bool, fibers: nat, acts: seq<Action>, f: nat)
    requires var s := Exec(Init(ableToSpin, fibers), acts); f < |s.pc| && s.pc[f].Out? && !s.word.locked
    ensures var s := Exec(Init(ableToSpin, fibers), acts);
      Alone(Step(s, Start(f, Lock)), f, 3) == Taken(s, f)
  {
    var s := Exec(Init(ableToSpin, fibers), acts);
    LockFrom(s, f);
  }

  lemma LockFrom(s: State, f: nat)
    requires f < |s.pc| && s.pc[f].Out? && !s.word.locked
    ensures Alone(Step(s, Start(f, Lock)), f, 3) == Taken(s, f)
  {
    var s0 := Step(s, Start(f, Lock));
    assert s0 == Goto(s, f, LockFast);
    if s.word == FREE {
      FastTake(s, f, s0);
    } else {
      assert Alone(s0, f, 1) == Goto(s, f, SlowTop(0));
      assert Alone(s0, f, 2) == Goto(s, f, SlowCas(0, s.word));
    }
  }

  lemma UnlockAlone(ableToSpin: bool, fibers: nat, acts: seq<Action>, f: nat)
    requires var s := Exec(Init(ableToSpin, fibers), acts);
      f < |s.pc| && s.pc[f].Holding? && s.word == ONLY_LOCKED
    ensures var s := Exec(Init(ableToSpin, fibers), acts);
      Alone(Step(s, Start(f, Unlock)), f, 1) == s.(word := FREE, owner := None, pc := s.pc[f := Out])
  {
    var s := Exec(Init(ableToSpin, fibers), acts);
    assert Step(s, Start(f, Unlock)) == Goto(s, f, UnlockFast);
  }

  // ---- Spinning ----

  // spinCount of a fiber in LockSlow.
  function Spun(pc: Pc): Link {
    match pc
    case SlowTop(n) => Some(n)
    case SlowCas(n, _) => Some(n)
    case SlowReload(n) => Some(n)
    case QueueCas(n, _) => Some(n)
    case InitBundle(n, _) => Some(n)
    case LinkNext(n, _) => Some(n)
    case SetTail(n, _) => Some(n)
    case ReloadFull(n) => Some(n)
    case StoreFull(n, _) => Some(n)
    case SelfTail(n) => Some(n)
    case ReloadEmpty(n) => Some(n)
    case StoreEmpty(n, _) => Some(n)
    case SwitchAway(n) => Some(n)
    case Parked(n) => Some(n)
    case Resumed(n) => Some(n)
    case _ => None
  }

  // In one call of lock, spinCount starts at 0 and goes up by one each time the fiber goes around the
  // loop because nobody is queued; parking does not reset it. The fiber goes for the queue only once that
  // is over, or somebody is queued.
  ghost predicate SpinFits(s: State, a: Action, f: nat)
    requires f < |s.pc|
  {
    var s' := Step(s, a);
    && s'.ableToSpin == s.ableToSpin && |s'.pc| == |s.pc|
    && (Spun(s'.pc[f]).Some? && Spun(s'.pc[f]) != Spun(s.pc[f]) ==>
          if Spun(s.pc[f]).None? then s.pc[f].LockFast? && Spun(s'.pc[f]) == Some(0)
          else s.ableToSpin && s.word.head.None? && Spun(s.pc[f]).value < 40
               && Spun(s'.pc[f]) == Some(Spun(s.pc[f]).value + 1))
    && (s'.pc[f].SlowReload? && s'.pc[f] != s.pc[f] ==>
          !s.ableToSpin || s.word.head.Some? || s'.pc[f].n >= 40)
  }

  lemma StepSpins(s: State, a: Action, f: nat)
    requires f < |s.pc|
    ensures SpinFits(s, a, f)
  {
    if a.Run? && a.f < |s.pc| {
      RunChangesOne(s, a.f, a.ok, f);
      RunKeepsAbility(s, a.f, a.ok);
      if a.f == f {
        if InEnqueue(s.pc[f]) { EnqueueSpins(s, f); }
        else if InUnlock(s.pc[f]) { UnlockSpins(s, f, a.ok); }
        else { LockSpins(s, f, a.ok); }
      }
    }
  }

  lemma RunKeepsAbility(s: State, f: nat, ok: bool)
    requires f < |s.pc|
    ensures RunStep(s, f, ok).ableToSpin == s.ableToSpin
  {
  }

  lemma EnqueueSpins(s: State, f: nat)
    requires f < |s.pc| && InEnqueue(s.pc[f])
    ensures |EnqueueStep(s, f).pc| == |s.pc| && Spun(EnqueueStep(s, f).pc[f]) == Spun(s.pc[f])
    ensures !EnqueueStep(s, f).pc[f].SlowReload?
  {
  }

  lemma UnlockSpins(s: State, f: nat, ok: bool)
    requires f < |s.pc| && InUnlock(s.pc[f])
    ensures |UnlockStep(s, f, ok).pc| == |s.pc| && Spun(UnlockStep(s, f, ok).pc[f]).None?
  {
  }

  lemma LockSpins(s: State, f: nat, ok: bool)
    requires f < |s.pc| && !InEnqueue(s.pc[f]) && !InUnlock(s.pc[f])
    ensures SpinFits(s, Run(f, ok), f)
  {
    assert Step(s, Run(f, ok)) == LockStep(s, f, ok);
  }

  // lock goes around at most 40 times for want of a queue, and not at all with a single thread.
  lemma {:induction false} SpinsAtMostForty(ableToSpin: bool, fibers: nat, acts: seq<Action>, f: nat)
    requires f < fibers
    ensures var s := Exec(Init(ableToSpin, fibers), acts);
      && s.ableToSpin == ableToSpin && |s.pc| == fibers
      && (Spun(s.pc[f]).Some? ==> Spun(s.pc[f]).value <= if ableToSpin then 40 else 0)
  {
    if acts == [] {
    } else {
      var before, a := acts[..|acts| - 1], acts[|acts| - 1];
      SpinsAtMostForty(ableToSpin, fibers, before, f);
      StepSpins(Exec(Init(ableToSpin, fibers), before), a, f);
    }
  }

  // ---- Progress ----

  // A fiber that is in a call and not parked can go on, unless it is an unlock that has to wait for the
  // queue lock; and then another fiber holds that, and can go on.
  lemma NobodyIsStuck(ableToSpin: bool, fibers: nat, acts: seq<Action>, f: nat)
    requires f < |Exec(Init(ableToSpin, fibers), acts).pc|
    ensures var s := Exec(Init(ableToSpin, fibers), acts);
      !s.pc[f].Out? && !s.pc[f].Holding? && !s.pc[f].Parked? ==>
        || Step(s, Run(f, true)) != s
        || (s.pc[f].UnlockTop? && s.queueOwner.Some? && s.queueOwner != Some(f)
            && Step(s, Run(s.queueOwner.value, true)) != s)
  {
    ExecKeepsInv(ableToSpin, fibers, acts);
    var s := Exec(Init(ableToSpin, fibers), acts);
    if !s.pc[f].Out? && !s.pc[f].Holding? && !s.pc[f].Parked? {
      GoesOn(s, f);
      if s.pc[f].UnlockTop? && s.word.queueLocked {
        QueueOwnerIs(s);
        GoesOn(s, s.queueOwner.value);
      }
    }
  }

  lemma QueueOwnerIs(s: State)
    requires Inv(s) && s.word.queueLocked
    ensures s.queueOwner.Some? && s.queueOwner.value < |s.pc| && HoldsQueue(s.pc[s.queueOwner.value])
  {
  }

  lemma GoesOn(s: State, f: nat)
    requires Inv(s) && f < |s.pc| && !s.pc[f].Out? && !s.pc[f].Holding? && !s.pc[f].Parked?
    ensures Step(s, Run(f, true)) != s || (s.pc[f].UnlockTop? && s.word.queueLocked)
  {
    assert PcOk(s.word, s.b, |s.pc|, f, s.pc[f]);
    RunMoves(s, f);
  }

  lemma RunMoves(s: State, f: nat)
    requires f < |s.pc| && !s.pc[f].Out? && !s.pc[f].Holding? && !s.pc[f].Parked?
    requires s.pc[f].UnlockLoad? ==> s.word.head.Some?
    ensures f < |RunStep(s, f, true).pc|
    ensures RunStep(s, f, true).pc[f] != s.pc[f] || (s.pc[f].UnlockTop? && s.word.queueLocked)
  {
    if InEnqueue(s.pc[f]) { assert EnqueueStep(s, f).pc[f] != s.pc[f]; }
    else if InUnlock(s.pc[f]) { UnlockMoves(s, f); }
    else { assert LockStep(s, f, true).pc[f] != s.pc[f]; }
  }

  lemma UnlockMoves(s: State, f: nat)
    requires f < |s.pc| && InUnlock(s.pc[f]) && (s.pc[f].UnlockLoad? ==> s.word.head.Some?)
    ensures f < |UnlockStep(s, f, true).pc|
    ensures UnlockStep(s, f, true).pc[f] != s.pc[f] || (s.pc[f].UnlockTop? && s.word.queueLocked)
  {
  }

  // A parked fiber can be switched away from, and resumes once it has been and is ready.
  lemma ParkedGoesOn(s: State, f: nat)
    requires f < |s.pc| && s.pc[f].Parked? && Sizes(s.b, |s.pc|)
    ensures !s.b.switched[f] ==> Step(s, CleanUp(f)).b.switched == s.b.switched[f := true]
    ensures s.b.switched[f] && s.b.place[f].Ready? ==> Step(s, Resume(f)).pc == s.pc[f := Resumed(s.pc[f].n)]
  {
  }
}

/** What callers of WaitGroup get: what the counter is after any calls of Add and Done, and where each
    call can end. */
module WaitGroupCalls {
  import opened Options
  import opened WaiterList
  import opened WaitGroupMachine

  // A fiber calls Add (Done is Add of -1) or Wait between calls.
  predicate Calls(s: State, a: Action, f: nat) {
    (a.Add? || a.StartWait?) && a.f == f && f < |s.pc| && s.pc[f].Idle?
  }

  // What a call adds.
  function Amount(s: State, a: Action): int {
    if a.Add? && Calls(s, a, a.f) then a.delta else 0
  }

  // The sum of what Add was called with.
  function Added(s0: State, acts: seq<Action>): int {
    if acts == [] then 0
    else
      var before, a := acts[..|acts| - 1], acts[|acts| - 1];
      Added(s0, before) + Amount(Exec(s0, before), a)
  }

  // The counter is the sum of all calls of Add, as a 32-bit integer; no other step changes it.
  lemma CounterIsSum(fibers: nat, acts: seq<Action>)
    ensures Exec(Init(fibers), acts).counter == Wrap32(Added(Init(fibers), acts))
  {
    assert Off(0, 0, 0);
    SumFrom(Init(fibers), acts);
    SumWraps(Exec(Init(fibers), acts).counter, Added(Init(fibers), acts));
  }

  // sum is k times 2^32 more than the counter.
  predicate Off(counter: int, sum: int, k: int) {
    sum == counter + k * 0x1_0000_0000
  }

  ghost predicate IsSum(counter: int, sum: int) {
    -0x8000_0000 <= counter < 0x8000_0000 && exists k :: Off(counter, sum, k)
  }

  lemma SumWraps(counter: int, sum: int)
    requires IsSum(counter, sum)
    ensures counter == Wrap32(sum)
  {
    var k :| Off(counter, sum, k);
    assert sum + 0x8000_0000 == counter + 0x8000_0000 + k * 0x1_0000_0000;
  }

  lemma {:induction false} SumFrom(s0: State, acts: seq<Action>)
    requires IsSum(s0.counter, 0)
    ensures IsSum(Exec(s0, acts).counter, Added(s0, acts))
  {
    if acts != [] {
      var before, a := acts[..|acts| - 1], acts[|acts| - 1];
      SumFrom(s0, before);
      LastAdds(s0, acts);
      StepAdds(Exec(s0, before), a, Exec(s0, acts), Added(s0, before), Added(s0, acts));
    }
  }

  lemma LastAdds(s0: State, acts: seq<Action>)
    requires acts != []
    ensures var before, a := acts[..|acts| - 1], acts[|acts| - 1];
      && Exec(s0, acts) == Step(Exec(s0, before), a)
      && Added(s0, acts) == Added(s0, before) + Amount(Exec(s0, before), a)
  {
  }

  lemma StepAdds(s: State, a: Action, s': State, sum: int, sum': int)
    requires IsSum(s.counter, sum) && s' == Step(s, a) && sum' == sum + Amount(s, a)
    ensures IsSum(s'.counter, sum')
  {
    if a.Add? && Calls(s, a, a.f) {
      WrapKeepsSum(s.counter, sum, a.delta);
      AddCounts(s, a);
    } else {
      OthersKeepCounter(s, a);
    }
  }

  lemma AddCounts(s: State, a: Action)
    requires a.Add? && Calls(s, a, a.f)
    ensures Step(s, a).counter == Wrap32(s.counter + a.delta) && Amount(s, a) == a.delta
  {
  }

  lemma OthersKeepCounter(s: State, a: Action)
    requires !(a.Add? && Calls(s, a, a.f))
    ensures Step(s, a).counter == s.counter && Amount(s, a) == 0
  {
    if a.Run? && a.f < |s.pc| { RunKeepsCounter(s, a.f, a.ok); }
  }

  lemma WrapKeepsSum(counter: int, sum: int, delta: int)
    requires IsSum(counter, sum)
    ensures IsSum(Wrap32(counter + delta), sum + delta)
  {
    var k :| Off(counter, sum, k);
    var x := counter + delta + 0x8000_0000;
    assert x == (x / 0x1_0000_0000) * 0x1_0000_0000 + x % 0x1_0000_0000;
    assert Off(Wrap32(counter + delta), sum + delta, k + x / 0x1_0000_0000);
  }

  lemma RunKeepsCounter(s: State, f: nat, ok: bool)
    requires f < |s.pc|
    ensures RunStep(s, f, ok).counter == s.counter
  {
  }

  datatype Call = AddCall | WaitCall

  // The call that fiber f made last in a run.
  function LastCall(s0: State, acts: seq<Action>, f: nat): Option<Call> {
    if acts == [] then None
    else
      var before, a := acts[..|acts| - 1], acts[|acts| - 1];
      After(Exec(s0, before), a, f, LastCall(s0, before, f))
  }

  function After(s: State, a: Action, f: nat, call: Option<Call>): Option<Call> {
    if Calls(s, a, f) then Some(if a.Add? then AddCall else WaitCall) else call
  }

  // Where a fiber can be after that call, Idle being where calls end.
  predicate MayBeAt(call: Option<Call>, pc: Pc) {
    match call
    case None => pc.Idle?
    case Some(AddCall) => InZeroingAdd(pc) || pc.Idle?
    case Some(WaitCall) => InWait(pc) || pc.Idle?
  }

  // Add and Done never wait; Wait never wakes anybody, nor gets at the counter.
  lemma {:induction false} CallsKeepToTheirCode(fibers: nat, acts: seq<Action>, f: nat)
    requires f < fibers
    ensures var s := Exec(Init(fibers), acts);
      |s.pc| == fibers && MayBeAt(LastCall(Init(fibers), acts, f), s.pc[f])
  {
    if acts == [] {
    } else {
      var before, a := acts[..|acts| - 1], acts[|acts| - 1];
      CallsKeepToTheirCode(fibers, before, f);
      StepStaysInCall(Exec(Init(fibers), before), a, f, LastCall(Init(fibers), before, f));
    }
  }

  lemma StepStaysInCall(s: State, a: Action, f: nat, call: Option<Call>)
    requires f < |s.pc| && MayBeAt(call, s.pc[f])
    ensures |Step(s, a).pc| == |s.pc| && MayBeAt(After(s, a, f, call), Step(s, a).pc[f])
  {
    if a.Run? && a.f < |s.pc| {
      RunChangesOne(s, a.f, a.ok, f);
      if a.f == f { RunStaysInCall(s, f, a.ok, call); }
    }
  }

  lemma RunChangesOne(s: State, g: nat, ok: bool, f: nat)
    requires g < |s.pc| && f < |s.pc|
    ensures |RunStep(s, g, ok).pc| == |s.pc| && (g != f ==> RunStep(s, g, ok).pc[f] == s.pc[f])
  {
  }

  lemma RunStaysInCall(s: State, f: nat, ok: bool, call: Option<Call>)
    requires f < |s.pc| && MayBeAt(call, s.pc[f])
    ensures |RunStep(s, f, ok).pc| == |s.pc| && MayBeAt(call, RunStep(s, f, ok).pc[f])
  {
  }

  // Whether the counter was zero at some point from fiber f's last call on.
  function SawZero(s0: State, acts: seq<Action>, f: nat): bool {
    if acts == [] then false
    else
      var before, a := acts[..|acts| - 1], acts[|acts| - 1];
      Exec(s0, before).counter == 0 || (!Calls(Exec(s0, before), a, f) && SawZero(s0, before, f))
  }

  // In a disciplined run, a fiber whose last call was Wait and which is through with it has had the
  // counter at zero in the meantime.
  lemma {:induction false} WaitIsOverAfterZero(fibers: nat, acts: seq<Action>, f: nat)
    requires f < fibers && Disciplined(Init(fibers), acts)
    requires f < |Exec(Init(fibers), acts).pc| && Exec(Init(fibers), acts).pc[f].Idle?
    requires LastCall(Init(fibers), acts, f) == Some(WaitCall)
    ensures SawZero(Init(fibers), acts, f)
  {
    var before, a := acts[..|acts| - 1], acts[|acts| - 1];
    var s := Exec(Init(fibers), before);
    CallsKeepToTheirCode(fibers, before, f);
    if Calls(s, a, f) {
    } else if InWait(s.pc[f]) {
      WaitReturnsAtZero(fibers, before, a, f);
    } else {
      WaitIsOverAfterZero(fibers, before, f);
    }
  }

  // ---- Progress ----

  // A fiber that is in a call and not parked can go on, unless it is an Add that has to wait for the
  // queue lock; and then another fiber holds that, and can go on.
  lemma NobodyIsStuck(fibers: nat, acts: seq<Action>, f: nat)
    requires Disciplined(Init(fibers), acts) && f < |Exec(Init(fibers), acts).pc|
    ensures var s := Exec(Init(fibers), acts);
      !s.pc[f].Idle? && !s.pc[f].Parked? ==>
        || Step(s, Run(f, true)) != s
        || (s.pc[f].AddTop? && s.queueOwner.Some? && s.queueOwner != Some(f)
            && Step(s, Run(s.queueOwner.value, true)) != s)
  {
    ExecKeepsInv(fibers, acts);
    var s := Exec(Init(fibers), acts);
    if !s.pc[f].Idle? && !s.pc[f].Parked? {
      GoesOn(s, f);
      if s.pc[f].AddTop? && s.word.queueLocked {
        QueueOwnerIs(s);
        GoesOn(s, s.queueOwner.value);
      }
    }
  }

  lemma QueueOwnerIs(s: State)
    requires Inv(s) && s.word.queueLocked
    ensures s.queueOwner.Some? && s.queueOwner.value < |s.pc| && HoldsQueue(s.pc[s.queueOwner.value])
  {
  }

  lemma GoesOn(s: State, f: nat)
    requires Inv(s) && f < |s.pc| && !s.pc[f].Idle? && !s.pc[f].Parked?
    ensures Step(s, Run(f, true)) != s || (s.pc[f].AddTop? && s.word.queueLocked)
  {
    RunMoves(s, f);
  }

  lemma RunMoves(s: State, f: nat)
    requires f < |s.pc| && !s.pc[f].Idle? && !s.pc[f].Parked?
    ensures f < |RunStep(s, f, true).pc|
    ensures RunStep(s, f, true).pc[f] != s.pc[f] || (s.pc[f].AddTop? && s.word.queueLocked)
  {
  }

  // A parked fiber can be switched away from, and resumes once it has been and is ready.
  lemma ParkedGoesOn(s: State, f: nat)
    requires f < |s.pc| && s.pc[f].Parked? && Sizes(s.b, |s.pc|)
    ensures !s.b.switched[f] ==> Step(s, CleanUp(f)).b.switched == s.b.switched[f := true]
    ensures s.b.switched[f] && s.b.place[f].Ready? ==> Step(s, Resume(f)).pc == s.pc[f := Resumed]
  {
  }

  // ---- Run alone ----

  // A Wait at counter zero returns at once, and leaves everything as it was.
  lemma WaitAtZeroAlone(s: State, f: nat)
    requires f < |s.pc| && s.pc[f].Idle? && s.counter == 0
    ensures Step(Step(s, StartWait(f)), Run(f, true)) == s
  {
    assert s.pc[f := WaitTop][f := Idle] == s.pc;
  }

  // A Wait at any other counter is still waiting after its first step.
  lemma WaitAboveZeroAlone(s: State, f: nat)
    requires f < |s.pc| && s.pc[f].Idle? && s.counter != 0
    ensures InWait(Step(Step(s, StartWait(f)), Run(f, true)).pc[f])
  {
  }

  // An Add that leaves the counter positive does nothing else; one that brings it to zero with nobody
  // waiting takes two more steps, and leaves nothing else changed.
  lemma AddAlone(s: State, f: nat, delta: int)
    requires f < |s.pc| && s.pc[f].Idle?
    ensures var count := Wrap32(s.counter + delta);
      && (count > 0 ==> Step(s, Add(f, delta)) == s.(counter := count))
      && (count <= 0 && s.word == FREE ==>
            Step(Step(Step(s, Add(f, delta)), Run(f, true)), Run(f, true)) == s.(counter := count, queueOwner := None))
  {
    var count := Wrap32(s.counter + delta);
    if count > 0 {
      assert s.pc[f := Idle] == s.pc;
    } else if s.word == FREE {
      assert Step(s, Add(f, delta)) == Goto(s.(counter := count), f, AddFast);
      assert s.pc[f := AddFast][f := AddRelease][f := Idle] == s.pc;
    }
  }
}

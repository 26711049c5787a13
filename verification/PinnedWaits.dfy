/** A Wait that asked to be pinned returns on the thread that called it: what a caller gets from the
    scheduler and the wait group together. */
module PinnedWaits {
  import opened Options
  import opened WaiterList
  import S = SchedulerMachine
  import C = SchedulerCalls
  import W = WaitGroupMachine
  import opened EndToEnd

  datatype Call = Call(t: nat, pinned: bool)

  // Fiber f calls Wait.
  predicate CallsWait(s: State, a: Action, f: nat) {
    a.StartWait? && Enabled(s, a) && Cur(s, a.t) == f
  }

  // The Wait that fiber f called last in a run: on which thread, and with what argument.
  function LastWait(s0: State, acts: seq<Action>, f: nat): Option<Call> {
    if acts == [] then None
    else After(Exec(s0, acts[..|acts| - 1]), acts[|acts| - 1], f, LastWait(s0, acts[..|acts| - 1], f))
  }

  function After(s: State, a: Action, f: nat, call: Option<Call>): Option<Call> {
    if CallsWait(s, a, f) then Some(Call(a.t, a.pinned)) else call
  }

  // Until it parks, a fiber in Wait is on the thread that called; while it is parked, its bundle knows
  // that thread if it is to; and then it is back there.
  predicate AtHome(x: S.Fiber, pc: W.Pc, pinning: bool, call: Option<Call>) {
    W.InWait(pc) ==>
      && call.Some?
      && (Waiting(pc) ==> x.place == S.Current(call.value.t) && pinning == call.value.pinned)
      && (Registering(pc) ==> x.place == S.Current(call.value.t))
      && (Registering(pc) || pc.Parked? ==> call.value.pinned ==> x.pin == Some(call.value.t))
      && (pc.Resumed? ==> call.value.pinned ==> x.place == S.Current(call.value.t))
  }

  ghost predicate Home(s: State, f: nat, call: Option<Call>) {
    && |s.pinning| == |s.wg.pc| == |s.sched.fibers| && f < |s.wg.pc|
    && AtHome(s.sched.fibers[f], s.wg.pc[f], s.pinning[f], call)
  }

  // ---- What the scheduler does with one fiber ----

  // A fiber that is running and not about to switch stays on its thread.
  lemma StaysCurrent(s: S.State, a: S.Action, f: nat)
    requires S.Inv(s) && f < |s.fibers| && s.fibers[f].place.Current?
    requires !s.fibers[f].pc.Resuming? && !s.fibers[f].pc.Leaving?
    ensures |S.Step(s, a).fibers| == |s.fibers| && S.Step(s, a).fibers[f].place == s.fibers[f].place
  {
    S.FiberFacts(s, f);
    match a
    case BootReserve(t, r) =>
    case BootSwitch(t) => if t < |s.threads| { S.ThreadFacts(s, t); }
    case CleanUp(t) => if S.Runs(s, t) { CleanUpLeaves(s, t, f); }
    case SwitchToReady(t) => if S.Runs(s, t) && S.Cur(s, t).pc.Resuming? { SwitchFacts(s, t); }
    case SwitchToFree(t) =>
      if S.Runs(s, t) {
        S.CurFacts(s, t);
        if S.Cur(s, t).pc.Leaving? { S.FiberFacts(s, S.Cur(s, t).pc.r); }
      }
    case Reserve(t, r) =>
    case _ => OthersKeepPlace(s, a, f);
  }

  lemma CleanUpLeaves(s: S.State, t: nat, f: nat)
    requires S.Inv(s) && S.Runs(s, t) && f < |s.fibers| && s.fibers[f].place.Current?
    ensures |S.CleanUpStep(s, t).fibers| == |s.fibers| && S.CleanUpStep(s, t).fibers[f].place == s.fibers[f].place
  {
    S.ThreadFacts(s, t);
    if S.AtResumePoint(S.Cur(s, t).pc) {
      CleanUpFacts(s, t);
      S.CleanUpShape(s, t);
    }
  }

  lemma OthersKeepPlace(s: S.State, a: S.Action, f: nat)
    requires f < |s.fibers| && !a.BootReserve? && !a.BootSwitch? && !a.CleanUp? && !a.Reserve? && !S.IsSwitch(a)
    ensures |S.Step(s, a).fibers| == |s.fibers| && S.Step(s, a).fibers[f].place == s.fibers[f].place
  {
    if S.Source(s, a).Some? { TakingKeepsPlace(s, a, f); }
    else if S.Puts(a) { PuttingKeepsPlace(s, a, f); }
  }

  lemma TakingKeepsPlace(s: S.State, a: S.Action, f: nat)
    requires f < |s.fibers| && S.Source(s, a).Some?
    ensures |S.Step(s, a).fibers| == |s.fibers| && S.Step(s, a).fibers[f].place == s.fibers[f].place
  {
  }

  lemma PuttingKeepsPlace(s: S.State, a: S.Action, f: nat)
    requires f < |s.fibers| && S.Puts(a)
    ensures |S.Step(s, a).fibers| == |s.fibers| && S.Step(s, a).fibers[f].place == s.fibers[f].place
  {
  }

  lemma SchedKeeps(s: S.State, a: S.Action, f: nat)
    requires S.Inv(s) && f < |s.fibers| && !C.Inits(s, a, f)
    ensures |S.Step(s, a).fibers| == |s.fibers| && S.Step(s, a).fibers[f].pin == s.fibers[f].pin
    ensures s.fibers[f].place.Current? && !s.fibers[f].pc.Resuming? && !s.fibers[f].pc.Leaving? ==>
      S.Step(s, a).fibers[f].place == s.fibers[f].place
  {
    C.StepKeepsPin(s, a, f);
    if s.fibers[f].place.Current? && !s.fibers[f].pc.Resuming? && !s.fibers[f].pc.Leaving? { StaysCurrent(s, a, f); }
  }

  // ---- One step ----

  // Nothing happens to fiber f's call, and its fiber stays where it is.
  lemma QuietKeepsHome(s: State, s': State, f: nat, call: Option<Call>)
    requires Home(s, f, call) && |s'.pinning| == |s.pinning| && |s'.wg.pc| == |s.wg.pc|
    requires |s'.sched.fibers| == |s.sched.fibers|
    requires s'.wg.pc[f] == s.wg.pc[f] && s'.pinning[f] == s.pinning[f]
    requires s'.sched.fibers[f].pin == s.sched.fibers[f].pin
    requires s.sched.fibers[f].place.Current? && !s.wg.pc[f].Parked? ==>
      s'.sched.fibers[f].place == s.sched.fibers[f].place
    ensures Home(s', f, call)
  {
  }

  lemma SchedulerKeepsHome(s: State, a: S.Action, f: nat, call: Option<Call>)
    requires Inv(s) && Home(s, f, call) && Enabled(s, Scheduler(a)) && W.InWait(s.wg.pc[f])
    ensures Home(Step(s, Scheduler(a)), f, call)
  {
    if WgOfScheduler(s, a) == Some(W.Resume(f)) {
      ResumeKeepsHome(s, a.t, f, call);
    } else {
      RestOfSchedulerKeepsHome(s, a, f, call);
    }
  }

  lemma ResumeKeepsHome(s: State, u: nat, f: nat, call: Option<Call>)
    requires Inv(s) && Home(s, f, call) && WgOfScheduler(s, S.SwitchToReady(u)) == Some(W.Resume(f))
    ensures Home(Step(s, Scheduler(S.SwitchToReady(u))), f, call)
  {
    ResumesAtHome(s, u, f);
  }

  lemma RestOfSchedulerKeepsHome(s: State, a: S.Action, f: nat, call: Option<Call>)
    requires Inv(s) && Home(s, f, call) && Enabled(s, Scheduler(a)) && W.InWait(s.wg.pc[f])
    requires WgOfScheduler(s, a) != Some(W.Resume(f))
    ensures Home(Step(s, Scheduler(a)), f, call)
  {
    InWaitIsBusy(s, a, f);
    SchedKeeps(s.sched, a, f);
    SchedulerLeavesPc(s, a, f);
    QuietKeepsHome(s, Step(s, Scheduler(a)), f, call);
  }

  // A fiber in Wait starts no wait of another kind, and while it is on a thread it stays there.
  lemma InWaitIsBusy(s: State, a: S.Action, f: nat)
    requires Inv(s) && Enabled(s, Scheduler(a)) && f < |s.wg.pc| && W.InWait(s.wg.pc[f])
    ensures f < |s.sched.fibers| && !C.Inits(s.sched, a, f)
    ensures !s.wg.pc[f].Parked? ==> !s.sched.fibers[f].pc.Resuming? && !s.sched.fibers[f].pc.Leaving?
  {
    AgreeFacts(s, f);
  }

  lemma SchedulerLeavesPc(s: State, a: S.Action, f: nat)
    requires Enabled(s, Scheduler(a)) && f < |s.wg.pc| && WgOfScheduler(s, a) != Some(W.Resume(f))
    ensures |Step(s, Scheduler(a)).wg.pc| == |s.wg.pc| && Step(s, Scheduler(a)).wg.pc[f] == s.wg.pc[f]
    ensures Step(s, Scheduler(a)).pinning == s.pinning && Step(s, Scheduler(a)).sched == S.Step(s.sched, a)
  {
  }

  // A parked fiber resumes on the thread its bundle names.
  lemma ResumesAtHome(s: State, u: nat, f: nat)
    requires Inv(s) && f < |s.wg.pc| && WgOfScheduler(s, S.SwitchToReady(u)) == Some(W.Resume(f))
    ensures Enabled(s, Scheduler(S.SwitchToReady(u)))
    ensures var s' := Step(s, Scheduler(S.SwitchToReady(u)));
      && s'.wg.pc == s.wg.pc[f := W.Resumed] && s'.pinning == s.pinning
      && f < |s'.sched.fibers| == |s.sched.fibers| && s'.sched.fibers[f].place == S.Current(u)
      && (s.sched.fibers[f].pin.Some? ==> s.sched.fibers[f].pin.value == u)
  {
    SwitchMeets(s.sched, u);
    AgreeFacts(s, f);
    ResumeRuns(s.wg, f);
  }

  lemma SwitchMeets(s: S.State, u: nat)
    requires S.Inv(s) && S.Runs(s, u) && S.Cur(s, u).pc.Resuming?
    ensures var s', w := S.Step(s, S.SwitchToReady(u)), S.Cur(s, u).pc.w;
      && |s'.fibers| == |s.fibers| && w < |s.fibers| && s'.fibers[w].place == S.Current(u)
      && s.fibers[w].flag && s.fibers[w].loc.Taken?
      && (s.fibers[w].pin.Some? ==> s.fibers[w].pin.value == u)
  {
    SwitchFacts(s, u);
    S.CurFacts(s, u);
    S.FiberFacts(s, S.Cur(s, u).pc.w);
  }

  lemma ResumeRuns(w: W.State, f: nat)
    requires f < |w.pc| && w.pc[f].Parked? && Sizes(w.b, |w.pc|) && w.b.place[f].Ready? && w.b.switched[f]
    ensures W.Step(w, W.Resume(f)).pc == w.pc[f := W.Resumed]
  {
  }

  // A step of the group by another fiber.
  lemma OthersKeepHome(s: State, a: Action, f: nat, call: Option<Call>)
    requires Inv(s) && Home(s, f, call) && Enabled(s, a) && !a.Scheduler? && Cur(s, a.t) != f && W.InWait(s.wg.pc[f])
    ensures Home(Step(s, a), f, call)
  {
    OthersLeaveCall(s, a, f);
    OthersLeaveFiber(s, a, f);
    QuietKeepsHome(s, Step(s, a), f, call);
  }

  lemma OthersLeaveCall(s: State, a: Action, f: nat)
    requires Enabled(s, a) && !a.Scheduler? && f < |s.wg.pc| == |s.pinning| && Cur(s, a.t) != f
    ensures var s' := Step(s, a);
      && |s'.wg.pc| == |s.wg.pc| && s'.wg.pc[f] == s.wg.pc[f]
      && |s'.pinning| == |s.pinning| && s'.pinning[f] == s.pinning[f]
  {
    W.StepIsOwn(s.wg, WgPart(s, a).value, f);
  }

  lemma OthersLeaveFiber(s: State, a: Action, f: nat)
    requires Inv(s) && Enabled(s, a) && !a.Scheduler? && f < |s.wg.pc| && Cur(s, a.t) != f && W.InWait(s.wg.pc[f])
    ensures var fibers, fibers' := s.sched.fibers, Step(s, a).sched.fibers;
      && f < |fibers| == |fibers'| && fibers'[f].pin == fibers[f].pin
      && (fibers[f].place.Current? && !s.wg.pc[f].Parked? ==> fibers'[f].place == fibers[f].place)
  {
    WaiterIsBusy(s, f);
    if SchedPart(s, a).Some? { OthersMoveOn(s.sched, SchedPart(s, a).value, f, s.wg.pc[f].Parked?); }
  }

  lemma WaiterIsBusy(s: State, f: nat)
    requires Inv(s) && f < |s.wg.pc| && W.InWait(s.wg.pc[f])
    ensures f < |s.sched.fibers|
    ensures !s.wg.pc[f].Parked? ==> !s.sched.fibers[f].pc.Resuming? && !s.sched.fibers[f].pc.Leaving?
  {
    AgreeFacts(s, f);
  }

  lemma OthersMoveOn(s: S.State, a: S.Action, f: nat, parked: bool)
    requires S.Inv(s) && f < |s.fibers| && S.Runs(s, a.t) && s.threads[a.t].cur != f
    requires !parked ==> !s.fibers[f].pc.Resuming? && !s.fibers[f].pc.Leaving?
    ensures |S.Step(s, a).fibers| == |s.fibers| && S.Step(s, a).fibers[f].pin == s.fibers[f].pin
    ensures s.fibers[f].place.Current? && !parked ==> S.Step(s, a).fibers[f].place == s.fibers[f].place
  {
    SchedKeeps(s, a, f);
  }

  // A step of the fiber's own Wait.
  lemma OwnStepKeepsHome(s: State, t: nat, ok: bool, f: nat, call: Option<Call>)
    requires Inv(s) && Home(s, f, call) && Enabled(s, Group(t, ok)) && Cur(s, t) == f && W.InWait(s.wg.pc[f])
    ensures Home(Step(s, Group(t, ok)), f, call)
  {
    if s.wg.pc[f].InitBundle? { InitKeepsHome(s, t, ok, f, call); }
    else if s.wg.pc[f].SwitchAway? { SwitchAwayKeepsHome(s, t, ok, f, call); }
    else { RestKeepsHome(s, t, ok, f, call); }
  }

  lemma RestKeepsHome(s: State, t: nat, ok: bool, f: nat, call: Option<Call>)
    requires Home(s, f, call) && Enabled(s, Group(t, ok)) && Cur(s, t) == f && W.InWait(s.wg.pc[f])
    requires !CallsScheduler(s.wg.pc[f])
    ensures Home(Step(s, Group(t, ok)), f, call)
  {
    OwnRun(s.wg, f, ok);
    GroupShape(s, t, ok);
  }

  lemma InitKeepsHome(s: State, t: nat, ok: bool, f: nat, call: Option<Call>)
    requires Inv(s) && Home(s, f, call) && Enabled(s, Group(t, ok)) && Cur(s, t) == f && s.wg.pc[f].InitBundle?
    ensures Home(Step(s, Group(t, ok)), f, call)
  {
    AgreeFacts(s, f);
    InitPins(s.sched, t, s.pinning[f]);
    OwnRun(s.wg, f, ok);
    CallShape(s, t, ok, S.InitBundle(t, s.pinning[f]));
  }

  lemma InitPins(s: S.State, t: nat, pinned: bool)
    requires S.Inv(s) && S.Runs(s, t) && S.Cur(s, t).pc.InTask?
    ensures var f, s' := s.threads[t].cur, S.Step(s, S.InitBundle(t, pinned));
      && |s'.fibers| == |s.fibers| && s'.fibers[f].pin == (if pinned then Some(t) else None)
      && s.fibers[f].place == S.Current(t) && s'.fibers[f].place == S.Current(t)
  {
    S.CurFacts(s, t);
    C.StepKeepsPin(s, S.InitBundle(t, pinned), s.threads[t].cur);
    StaysCurrent(s, S.InitBundle(t, pinned), s.threads[t].cur);
  }

  lemma SwitchAwayKeepsHome(s: State, t: nat, ok: bool, f: nat, call: Option<Call>)
    requires Inv(s) && Home(s, f, call) && Enabled(s, Group(t, ok)) && Cur(s, t) == f && s.wg.pc[f].SwitchAway?
    ensures Home(Step(s, Group(t, ok)), f, call)
  {
    SchedKeeps(s.sched, S.EnterSwitch(t), f);
    OwnRun(s.wg, f, ok);
    CallShape(s, t, ok, S.EnterSwitch(t));
  }

  // Where the group's own code goes from each phase of a Wait.
  lemma OwnRun(w: W.State, f: nat, ok: bool)
    requires f < |w.pc| && W.InWait(w.pc[f])
    ensures |W.RunStep(w, f, ok).pc| == |w.pc|
    ensures var pc, pc' := w.pc[f], W.RunStep(w, f, ok).pc[f];
      || pc'.Idle? || pc' == pc
      || (pc.InitBundle? && Registering(pc'))
      || (pc.SwitchAway? && pc'.Parked?)
      || (Waiting(pc) && !pc.InitBundle? && Waiting(pc'))
      || (Registering(pc) && !pc.SwitchAway? && Registering(pc'))
  {
  }

  lemma StepKeepsHome(s: State, a: Action, f: nat, call: Option<Call>)
    requires Inv(s) && Home(s, f, call)
    ensures Home(Step(s, a), f, After(s, a, f, call))
  {
    if !Enabled(s, a) {
    } else if CallsWait(s, a, f) {
      CallIsHome(s, a.t, a.pinned, f);
    } else if !W.InWait(s.wg.pc[f]) {
      StaysOut(s, a, f);
    } else if a.Scheduler? {
      SchedulerKeepsHome(s, a.a, f, call);
    } else if Cur(s, a.t) != f {
      OthersKeepHome(s, a, f, call);
    } else {
      OwnStepKeepsHome(s, a.t, a.ok, f, call);
    }
  }

  lemma CallIsHome(s: State, t: nat, pinned: bool, f: nat)
    requires Inv(s) && f < |s.wg.pc| == |s.pinning| && Enabled(s, StartWait(t, pinned)) && Cur(s, t) == f
    ensures Home(Step(s, StartWait(t, pinned)), f, Some(Call(t, pinned)))
  {
    S.CurFacts(s.sched, t);
    assert Step(s, StartWait(t, pinned)) ==
      s.(wg := W.Step(s.wg, W.StartWait(f)), pinning := Set(s.pinning, f, pinned));
  }

  // Only a call of Wait brings a fiber into it.
  lemma StaysOut(s: State, a: Action, f: nat)
    requires Inv(s) && f < |s.wg.pc| == |s.pinning| && Enabled(s, a) && !CallsWait(s, a, f) && !W.InWait(s.wg.pc[f])
    ensures var s' := Step(s, a);
      && |s'.wg.pc| == |s.wg.pc| == |s'.pinning| == |s'.sched.fibers|
      && !W.InWait(s'.wg.pc[f])
  {
    if SchedPart(s, a).Some? { SizesStay(s.sched, SchedPart(s, a).value); }
    if WgPart(s, a).Some? { OnlyCallsEnter(s.wg, WgPart(s, a).value, f); }
  }

  lemma SizesStay(s: S.State, a: S.Action)
    ensures |S.Step(s, a).fibers| == |s.fibers|
  {
    if |s.fibers| > 0 { C.StepKeepsPin(s, a, 0); }
  }

  lemma OnlyCallsEnter(w: W.State, a: W.Action, f: nat)
    requires f < |w.pc| && !W.InWait(w.pc[f]) && !(a.StartWait? && a.f == f)
    ensures |W.Step(w, a).pc| == |w.pc| && !W.InWait(W.Step(w, a).pc[f])
  {
    W.StepIsOwn(w, a, f);
  }

  // ---- Every run ----

  lemma {:induction false} EveryoneIsHome(threads: nat, fibers: nat, tasks: nat, n: nat, acts: seq<Action>, f: nat)
    requires threads >= 1 && f < fibers && n <= tasks && n <= W.MAX_COUNT
    ensures Home(Exec(Init(threads, fibers, tasks, n), acts), f, LastWait(Init(threads, fibers, tasks, n), acts, f))
  {
    if acts != [] {
      var before := acts[..|acts| - 1];
      EveryoneIsHome(threads, fibers, tasks, n, before, f);
      ExecKeepsInv(threads, fibers, tasks, n, before);
      StepKeepsHome(Exec(Init(threads, fibers, tasks, n), before), acts[|acts| - 1], f,
                    LastWait(Init(threads, fibers, tasks, n), before, f));
    }
  }

  // A Wait called with pinToCurrentThread returns on the thread that called it.
  lemma PinnedWaitReturnsThere(threads: nat, fibers: nat, tasks: nat, n: nat, acts: seq<Action>, a: Action, f: nat)
    requires threads >= 1 && f < fibers && n <= tasks && n <= W.MAX_COUNT
    requires var s := Exec(Init(threads, fibers, tasks, n), acts);
      && f < |s.wg.pc| && W.InWait(s.wg.pc[f])
      && f < |Step(s, a).wg.pc| && !W.InWait(Step(s, a).wg.pc[f])
    ensures var s := Exec(Init(threads, fibers, tasks, n), acts);
      var call := LastWait(Init(threads, fibers, tasks, n), acts, f);
      && call.Some? && a.Group? && S.IsCurrentOn(s.sched, a.t, f)
      && (call.value.pinned ==> a.t == call.value.t)
  {
    ExecKeepsInv(threads, fibers, tasks, n, acts);
    EveryoneIsHome(threads, fibers, tasks, n, acts, f);
    var s := Exec(Init(threads, fibers, tasks, n), acts);
    W.WaitEndsOnlyHere(s.wg, WgPart(s, a).value, f);
    S.CurFacts(s.sched, a.t);
  }
}

/** One AddTasks of n tasks to a wait group, the tasks themselves, and any number of Waits, on the
    scheduler. The state is a SchedulerMachine and a WaitGroupMachine over the same fibers; a step of
    a group call is taken by the thread whose current fiber is in that call, and the calls the group
    makes into the scheduler (InitWaitingFiberBundle, SwitchToFreeFiber, AddReadyFiber) are steps of
    both machines at once.

    Tasks 0 to n - 1 are the group's. They, and the other tasks, may park on other objects too, and
    come back on other threads. */
module EndToEnd {
  import opened Options
  import opened WaiterList
  import S = SchedulerMachine
  import W = WaitGroupMachine

  // done[i]: task i's Done has decremented the counter. adder: the fiber that called AddTasks. pinning[f]:
  // the argument pinToCurrentThread of fiber f's Wait.
  datatype State = State(sched: S.State, wg: W.State, done: seq<bool>, adder: Link, pinning: seq<bool>)

  // Every action is a step of thread t; Group is the next step of the group call its fiber is in.
  datatype Action =
    | Scheduler(a: S.Action)
    | AddTasks(t: nat)
    | StartWait(t: nat, pinned: bool)
    | Done(t: nat)
    | Group(t: nat, ok: bool)

  function Init(threads: nat, fibers: nat, tasks: nat, n: nat): State
    requires threads >= 1 && fibers >= 1
  {
    State(S.Init(threads, fibers, tasks), W.Init(fibers), seq(n, _ => false), None, seq(fibers, _ => false))
  }

  // The fiber thread t is running, and where it is in a call on the group.
  predicate Runs(s: State, t: nat) {
    S.Runs(s.sched, t) && s.sched.threads[t].cur < |s.wg.pc|
  }

  function Cur(s: State, t: nat): nat
    requires Runs(s, t)
  {
    s.sched.threads[t].cur
  }

  predicate OutsideGroup(s: State, t: nat) {
    Runs(s, t) && s.wg.pc[Cur(s, t)].Idle?
  }

  // Task i is the group's, and Done has not been called for it.
  predicate Owes(s: State, i: Link) {
    i.Some? && i.value < |s.done| && !s.done[i.value]
  }

  // What the code running on a thread may do next.
  predicate Enabled(s: State, a: Action) {
    match a
    case Scheduler(EndTask(t)) => OutsideGroup(s, t)
    case Scheduler(FinishTask(t)) => OutsideGroup(s, t) && !Owes(s, S.Cur(s.sched, t).job)
    case Scheduler(PushTask(t, i, _)) => OutsideGroup(s, t) && (i < |s.done| ==> s.adder == Some(Cur(s, t)))
    case Scheduler(InitBundle(t, _)) => OutsideGroup(s, t)
    case Scheduler(EnterSwitch(t)) => OutsideGroup(s, t)
    // a bundle registered elsewhere
    case Scheduler(AddReady(t, w)) => OutsideGroup(s, t) && w < |s.wg.pc| && s.wg.pc[w].Idle?
    case Scheduler(_) => true
    case AddTasks(t) => OutsideGroup(s, t) && S.Cur(s.sched, t).pc.InTask? && s.adder.None?
    case StartWait(t, _) => OutsideGroup(s, t) && S.Cur(s.sched, t).pc.InTask?
    case Done(t) => OutsideGroup(s, t) && S.Cur(s.sched, t).pc.TaskEnded? && Owes(s, S.Cur(s.sched, t).job)
    case Group(t, _) =>
      Runs(s, t) && (S.Cur(s.sched, t).pc.InTask? || S.Cur(s.sched, t).pc.TaskEnded? || S.Cur(s.sched, t).pc.Parking?)
  }

  predicate Pinning(s: State, f: nat) {
    f < |s.pinning| && s.pinning[f]
  }

  // The scheduler's part in an action.
  function SchedPart(s: State, a: Action): Option<S.Action>
    requires Enabled(s, a)
  {
    match a
    case Scheduler(act) => Some(act)
    case Group(t, _) =>
      var pc := s.wg.pc[Cur(s, t)];
      if pc.InitBundle? then Some(S.InitBundle(t, Pinning(s, Cur(s, t))))
      else if pc.SwitchAway? then Some(S.EnterSwitch(t))
      else if pc.Pass? then Some(S.AddReady(t, pc.h))
      else None
    case _ => None
  }

  predicate ParkedOnGroup(s: State, f: nat) {
    f < |s.wg.pc| && s.wg.pc[f].Parked?
  }

  // The wait group's part in a scheduler action that has an effect.
  function WgOfScheduler(s: State, a: S.Action): Option<W.Action> {
    if S.Step(s.sched, a) == s.sched || !S.Runs(s.sched, a.t) then None else
    var th, x := s.sched.threads[a.t], S.Cur(s.sched, a.t);
    if a.SwitchToReady? && x.pc.Resuming? && ParkedOnGroup(s, x.pc.w) then Some(W.Resume(x.pc.w))
    else if a.CleanUp? && th.dest.ToWaiting? && th.flag.Some? && ParkedOnGroup(s, th.flag.value)
    then Some(W.CleanUp(th.flag.value))
    else None
  }

  // The wait group's part in an action.
  function WgPart(s: State, a: Action): Option<W.Action>
    requires Enabled(s, a)
  {
    match a
    case Scheduler(act) => WgOfScheduler(s, act)
    case AddTasks(t) => Some(W.Add(Cur(s, t), |s.done|))
    case StartWait(t, _) => Some(W.StartWait(Cur(s, t)))
    case Done(t) => Some(W.Add(Cur(s, t), -1))
    case Group(t, ok) => Some(W.Run(Cur(s, t), ok))
  }

  function Step(s: State, a: Action): State {
    if !Enabled(s, a) then s else
    State(
      if SchedPart(s, a).Some? then S.Step(s.sched, SchedPart(s, a).value) else s.sched,
      if WgPart(s, a).Some? then W.Step(s.wg, WgPart(s, a).value) else s.wg,
      if a.Done? then s.done[S.Cur(s.sched, a.t).job.value := true] else s.done,
      if a.AddTasks? then Some(Cur(s, a.t)) else s.adder,
      if a.StartWait? then Set(s.pinning, Cur(s, a.t), a.pinned) else s.pinning)
  }

  function Exec(s: State, acts: seq<Action>): State {
    if acts == [] then s else Step(Exec(s, acts[..|acts| - 1]), acts[|acts| - 1])
  }

  // ---- The invariant ----

  // On the waiter list's side of a Wait: its bundle has been initialised.
  predicate Registering(pc: W.Pc) {
    pc.LinkNext? || pc.SetTail? || pc.StoreFull? || pc.SelfTail? || pc.StoreEmpty? || pc.SwitchAway?
  }

  predicate Away(pc: S.Pc) {
    pc.Reserving? || pc.Leaving? || pc.ParkedOut?
  }

  // AddReadyFiber has been called for the bundle and its fiber has not resumed.
  predicate Readied(loc: S.BundleLoc) {
    loc.Boxed? || loc.Hand? || loc.Taken?
  }

  predicate SameBundle(x: S.Fiber, place: Place, switched: bool) {
    && x.flag == switched
    && (if place.Ready? then Readied(x.loc) else x.loc.Registered?)
  }

  // The scheduler and the group say the same about one fiber.
  predicate Agree(x: S.Fiber, pc: W.Pc, place: Place, switched: bool) {
    if pc.Idle? then true
    else if Registering(pc) then x.pc.Parking? && SameBundle(x, place, switched)
    else if pc.Parked? then Away(x.pc) && SameBundle(x, place, switched)
    else if pc.Resumed? then (x.pc.ParkedOut? || x.pc.InTask?) && x.loc.NoBundle?
    else if W.InZeroingAdd(pc) then x.pc.InTask? || x.pc.TaskEnded?
    else x.pc.InTask?
  }

  ghost predicate AllAgree(fibers: seq<S.Fiber>, pcs: seq<W.Pc>, b: Bundles) {
    && |fibers| == |pcs| && Sizes(b, |pcs|)
    && forall f {:trigger fibers[f]} {:trigger pcs[f]} | 0 <= f < |pcs| ::
         Agree(fibers[f], pcs[f], b.place[f], b.switched[f])
  }

  predicate Over(loc: S.TaskLoc) {
    loc.Ended? || loc.Finished?
  }

  ghost predicate MarksOk(tasks: seq<S.TaskState>, done: seq<bool>) {
    && |done| <= |tasks|
    && (forall i | 0 <= i < |done| && done[i] :: Over(tasks[i].loc))
    && (forall i {:trigger tasks[i]} | 0 <= i < |done| && tasks[i].loc.Finished? :: done[i])
  }

  ghost function Undone(done: seq<bool>): set<nat> {
    set i: nat | i < |done| && !done[i]
  }

  // Nobody can be waiting, and no task has started, before AddTasks.
  ghost predicate NotStarted(pcs: seq<W.Pc>, tasks: seq<S.TaskState>, done: seq<bool>)
    requires |done| <= |tasks|
  {
    && |Undone(done)| == |done| <= W.MAX_COUNT
    && (forall f | 0 <= f < |pcs| :: pcs[f].Idle? || pcs[f].WaitTop?)
    && (forall i {:trigger tasks[i]} | 0 <= i < |done| :: tasks[i].loc.Unpushed?)
  }

  ghost predicate CountOk(counter: int, pcs: seq<W.Pc>, tasks: seq<S.TaskState>, done: seq<bool>, started: bool)
    requires |done| <= |tasks|
  {
    if started then counter == |Undone(done)| else counter == 0 && NotStarted(pcs, tasks, done)
  }

  ghost predicate Inv(s: State) {
    && S.Inv(s.sched) && W.Inv(s.wg)
    && AllAgree(s.sched.fibers, s.wg.pc, s.wg.b)
    && MarksOk(s.sched.tasks, s.done)
    && CountOk(s.wg.counter, s.wg.pc, s.sched.tasks, s.done, s.adder.Some?)
  }

  // ---- What a scheduler step does to fibers and tasks ----

  // The pcs a fiber in a call on the group can have.
  predicate TaskZone(pc: S.Pc) {
    pc.InTask? || pc.TaskEnded? || pc.Parking? || Away(pc)
  }

  // Nothing changes that a group call could notice.
  predicate Unnoticed(x: S.Fiber, y: S.Fiber) {
    TaskZone(x.pc) ==>
      && y.flag == x.flag
      && (y.pc == x.pc || (Away(x.pc) && Away(y.pc) && !x.pc.ParkedOut?))
      && (y.loc == x.loc || (Readied(x.loc) && Readied(y.loc)))
  }

  // Steps of the worker loop and of fiber switching, but for the two ends of a switch.
  predicate IsInternal(a: S.Action) {
    a.BootReserve? || a.BootSwitch? || a.TakePinned? || a.SkipPinned? || a.PopHi? || a.StealHi? || a.GiveUp? || a.Check?
    || a.PutBack? || a.EndFlush? || a.PopLow? || a.StealLow? || a.FindNothing? || a.Reserve? || a.SwitchToFree?
  }

  // What the step takes out of a box, the history had in a box.
  ghost predicate HandlesBoxed(s: S.State, a: S.Action) {
    S.Handled(s, a).Some? ==> S.BoxOf(s, S.Handled(s, a).value).Some?
  }

  lemma InternalUnnoticed(s: S.State, a: S.Action, f: nat)
    requires IsInternal(a) && f < |s.fibers| && HandlesBoxed(s, a)
    requires S.Runs(s, a.t) ==> S.PcOk(s.fibers, s.tasks, s.threads[a.t].cur, S.Cur(s, a.t))
    ensures |S.Step(s, a).fibers| == |s.fibers| && Unnoticed(s.fibers[f], S.Step(s, a).fibers[f])
  {
    if S.Source(s, a).Some? { TakingUnnoticed(s, a, f); } else if IsFlushStep(a) { FlushUnnoticed(s, a, f); }
  }

  predicate IsFlushStep(a: S.Action) {
    a.Check? || a.PutBack? || a.EndFlush?
  }

  lemma TakingUnnoticed(s: S.State, a: S.Action, f: nat)
    requires S.Source(s, a).Some? && f < |s.fibers| && HandlesBoxed(s, a)
    ensures |S.Step(s, a).fibers| == |s.fibers| && Unnoticed(s.fibers[f], S.Step(s, a).fibers[f])
  {
    match a
    case TakePinned(t, j) =>
    case PopHi(t) => GrabUnnoticed(s, t, S.HiQ(t), |S.Content(s.boxes, S.HiQ(t))| - 1, f);
    case StealHi(t, v) => GrabUnnoticed(s, t, S.HiQ(v), 0, f);
    case PopLow(t) => StartUnnoticed(s, t, S.LoQ(t), |S.Content(s.boxes, S.LoQ(t))| - 1, f);
    case StealLow(t, v) => StartUnnoticed(s, t, S.LoQ(v), 0, f);
  }

  lemma GrabUnnoticed(s: S.State, t: nat, b: S.Box, j: int, f: nat)
    requires f < |s.fibers|
    requires 0 <= j < |S.Content(s.boxes, b)| ==> S.BoxOf(s, S.Content(s.boxes, b)[j]).Some?
    ensures |S.GrabStep(s, t, b, j).fibers| == |s.fibers| && Unnoticed(s.fibers[f], S.GrabStep(s, t, b, j).fibers[f])
  {
  }

  lemma StartUnnoticed(s: S.State, t: nat, b: S.Box, j: int, f: nat)
    requires f < |s.fibers|
    ensures |S.StartStep(s, t, b, j).fibers| == |s.fibers| && Unnoticed(s.fibers[f], S.StartStep(s, t, b, j).fibers[f])
  {
  }

  lemma FlushUnnoticed(s: S.State, a: S.Action, f: nat)
    requires IsFlushStep(a) && f < |s.fibers| && HandlesBoxed(s, a)
    requires S.Runs(s, a.t) ==> S.PcOk(s.fibers, s.tasks, s.threads[a.t].cur, S.Cur(s, a.t))
    ensures |S.Step(s, a).fibers| == |s.fibers| && Unnoticed(s.fibers[f], S.Step(s, a).fibers[f])
  {
    match a
    case Check(t) => CheckUnnoticed(s, t, f);
    case PutBack(t) => PutBackUnnoticed(s, t, f);
    case EndFlush(t) =>
  }

  lemma CheckUnnoticed(s: S.State, t: nat, f: nat)
    requires f < |s.fibers|
    requires S.Runs(s, t) ==> S.PcOk(s.fibers, s.tasks, s.threads[t].cur, S.Cur(s, t))
    ensures |S.CheckStep(s, t).fibers| == |s.fibers| && Unnoticed(s.fibers[f], S.CheckStep(s, t).fibers[f])
  {
  }

  lemma PutBackUnnoticed(s: S.State, t: nat, f: nat)
    requires f < |s.fibers| && HandlesBoxed(s, S.PutBack(t))
    ensures |S.PutBackStep(s, t).fibers| == |s.fibers| && Unnoticed(s.fibers[f], S.PutBackStep(s, t).fibers[f])
  {
  }

  lemma AgreeUnnoticed(x: S.Fiber, y: S.Fiber, pc: W.Pc, place: Place, switched: bool)
    requires Unnoticed(x, y) && Agree(x, pc, place, switched)
    ensures Agree(y, pc, place, switched)
  {
  }

  lemma InternalAgrees(s: S.State, a: S.Action, pcs: seq<W.Pc>, b: Bundles)
    requires S.Inv(s) && IsInternal(a) && AllAgree(s.fibers, pcs, b)
    ensures AllAgree(S.Step(s, a).fibers, pcs, b)
  {
    if S.Runs(s, a.t) { S.CurFacts(s, a.t); }
    if S.Handled(s, a).Some? { S.HandledIsBoxed(s, a); }
    forall f | 0 <= f < |pcs|
      ensures |S.Step(s, a).fibers| == |s.fibers| && Agree(S.Step(s, a).fibers[f], pcs[f], b.place[f], b.switched[f])
    {
      InternalUnnoticed(s, a, f);
      AgreeUnnoticed(s.fibers[f], S.Step(s, a).fibers[f], pcs[f], b.place[f], b.switched[f]);
    }
    if |pcs| == 0 { assert !S.Runs(s, a.t); }
  }

  // Where task i may go: only PushTask starts it off, only FinishTask, of the fiber running it, ends it.
  predicate TaskMoves(loc: S.TaskLoc, loc': S.TaskLoc, a: S.Action, job: Link, i: nat) {
    && (loc.Unpushed? && !(a.PushTask? && a.i == i) ==> loc' == loc)
    && (Over(loc) ==> Over(loc'))
    && (loc'.Finished? ==> loc.Finished? || (a.FinishTask? && job == Some(i)))
  }

  function JobOn(s: S.State, t: nat): Link {
    if S.Runs(s, t) then S.Cur(s, t).job else None
  }

  lemma TaskStep(s: S.State, a: S.Action, i: nat)
    requires i < |s.tasks| && S.TaskOk(s.fibers, i, s.tasks[i]) && HandlesBoxed(s, a)
    requires S.Runs(s, a.t) ==> S.PcOk(s.fibers, s.tasks, s.threads[a.t].cur, S.Cur(s, a.t))
    ensures |S.Step(s, a).tasks| == |s.tasks|
    ensures TaskMoves(s.tasks[i].loc, S.Step(s, a).tasks[i].loc, a, JobOn(s, a.t), i)
  {
    if S.Source(s, a).Some? { TakenTaskMoves(s, a, i); }
    else if S.Puts(a) { PutTaskMoves(s, a, i); }
    else { RunTaskMoves(s, a, i); }
  }

  lemma TakenTaskMoves(s: S.State, a: S.Action, i: nat)
    requires i < |s.tasks| && S.Source(s, a).Some? && HandlesBoxed(s, a)
    ensures |S.Step(s, a).tasks| == |s.tasks|
    ensures TaskMoves(s.tasks[i].loc, S.Step(s, a).tasks[i].loc, a, None, i)
  {
  }

  lemma PutTaskMoves(s: S.State, a: S.Action, i: nat)
    requires i < |s.tasks| && S.TaskOk(s.fibers, i, s.tasks[i]) && S.Puts(a) && HandlesBoxed(s, a)
    ensures |S.Step(s, a).tasks| == |s.tasks|
    ensures TaskMoves(s.tasks[i].loc, S.Step(s, a).tasks[i].loc, a, None, i)
  {
  }

  lemma RunTaskMoves(s: S.State, a: S.Action, i: nat)
    requires i < |s.tasks| && S.Source(s, a).None? && !S.Puts(a)
    requires S.Runs(s, a.t) ==> S.PcOk(s.fibers, s.tasks, s.threads[a.t].cur, S.Cur(s, a.t))
    ensures |S.Step(s, a).tasks| == |s.tasks|
    ensures TaskMoves(s.tasks[i].loc, S.Step(s, a).tasks[i].loc, a, JobOn(s, a.t), i)
  {
  }

  // ---- The tasks' part of the invariant ----

  // The group's tasks after scheduler step a.
  lemma MarksKeep(s: S.State, a: S.Action, done: seq<bool>)
    requires S.Inv(s) && MarksOk(s.tasks, done)
    requires a.FinishTask? && S.Runs(s, a.t) && S.Cur(s, a.t).job.Some? && S.Cur(s, a.t).job.value < |done| ==>
      done[S.Cur(s, a.t).job.value]
    ensures MarksOk(S.Step(s, a).tasks, done)
    ensures !(a.PushTask? && a.i < |done|) ==>
      forall i {:trigger S.Step(s, a).tasks[i]} | 0 <= i < |done| && s.tasks[i].loc.Unpushed? ::
        S.Step(s, a).tasks[i].loc.Unpushed?
  {
    if S.Runs(s, a.t) { S.CurFacts(s, a.t); }
    if S.Handled(s, a).Some? { S.HandledIsBoxed(s, a); }
    TaskCount(s, a);
    forall i | 0 <= i < |done|
      ensures i < |s.tasks| && i < |S.Step(s, a).tasks|
      ensures TaskMoves(s.tasks[i].loc, S.Step(s, a).tasks[i].loc, a, JobOn(s, a.t), i)
    {
      S.TaskFacts(s, i);
      TaskStep(s, a, i);
    }
  }

  lemma TaskCount(s: S.State, a: S.Action)
    ensures |S.Step(s, a).tasks| == |s.tasks|
  {
  }

  // ---- Scheduler steps ----

  lemma WgStays(s: State, a: S.Action)
    requires !a.SwitchToReady? && !a.CleanUp?
    ensures WgOfScheduler(s, a) == None
  {
  }

  lemma InternalKeepsInv(s: State, a: S.Action)
    requires Inv(s) && IsInternal(a)
    ensures Inv(Step(s, Scheduler(a)))
  {
    S.StepKeepsInv(s.sched, a);
    InternalAgrees(s.sched, a, s.wg.pc, s.wg.b);
    MarksKeep(s.sched, a, s.done);
    WgStays(s, a);
  }

  predicate IsUserStep(a: S.Action) {
    a.EndTask? || a.FinishTask? || a.PushTask? || a.InitBundle? || a.EnterSwitch? || a.AddReady?
  }

  // Code that is not in a call on the group changes only its own fiber and bundles of fibers that are not either.
  lemma UserChanges(s: S.State, a: S.Action, f: nat)
    requires IsUserStep(a) && f < |s.fibers|
    requires S.Runs(s, a.t) ==> f != s.threads[a.t].cur
    requires a.AddReady? ==> f != a.w
    ensures |S.Step(s, a).fibers| == |s.fibers| && S.Step(s, a).fibers[f] == s.fibers[f]
  {
  }

  lemma UserKeepsInv(s: State, a: S.Action)
    requires Inv(s) && IsUserStep(a) && Enabled(s, Scheduler(a))
    ensures Inv(Step(s, Scheduler(a)))
  {
    S.StepKeepsInv(s.sched, a);
    MarksKeep(s.sched, a, s.done);
    WgStays(s, a);
    var s' := Step(s, Scheduler(a));
    forall f | 0 <= f < |s.wg.pc| && !s.wg.pc[f].Idle?
      ensures |s'.sched.fibers| == |s.sched.fibers| && s'.sched.fibers[f] == s.sched.fibers[f]
    {
      UserChanges(s.sched, a, f);
    }
    SizeStays(s.sched, a);
  }

  lemma SizeStays(s: S.State, a: S.Action)
    requires IsUserStep(a)
    ensures |S.Step(s, a).fibers| == |s.fibers|
  {
  }

  // ---- The agreement, one step of both machines at a time ----

  // Fibers other than f and h look the same to both machines as before, and f and h are agreed on.
  ghost predicate Near(fibers: seq<S.Fiber>, pcs: seq<W.Pc>, b: Bundles, fibers': seq<S.Fiber>, pcs': seq<W.Pc>,
                       b': Bundles, f: nat, h: nat)
    requires Sizes(b, |pcs|) && |fibers| == |pcs|
  {
    && |fibers'| == |fibers| == |pcs'| && Sizes(b', |pcs'|) && f < |pcs| && h < |pcs|
    && (forall g | 0 <= g < |pcs| && g != f && g != h ::
          && fibers'[g] == fibers[g] && pcs'[g] == pcs[g]
          && b'.switched[g] == b.switched[g] && b'.place[g].Ready? == b.place[g].Ready?)
    && Agree(fibers'[f], pcs'[f], b'.place[f], b'.switched[f])
    && Agree(fibers'[h], pcs'[h], b'.place[h], b'.switched[h])
  }

  lemma AgreeMove(fibers: seq<S.Fiber>, pcs: seq<W.Pc>, b: Bundles, fibers': seq<S.Fiber>, pcs': seq<W.Pc>, b': Bundles,
                  f: nat, h: nat)
    requires AllAgree(fibers, pcs, b) && Near(fibers, pcs, b, fibers', pcs', b', f, h)
    ensures AllAgree(fibers', pcs', b')
  {
    forall g | 0 <= g < |pcs|
      ensures Agree(fibers'[g], pcs'[g], b'.place[g], b'.switched[g])
    {
      assert Agree(fibers[g], pcs[g], b.place[g], b.switched[g]);
    }
  }

  lemma AgreeFacts(s: State, f: nat)
    requires Inv(s) && f < |s.wg.pc|
    ensures f < |s.sched.fibers| && Sizes(s.wg.b, |s.wg.pc|)
    ensures Agree(s.sched.fibers[f], s.wg.pc[f], s.wg.b.place[f], s.wg.b.switched[f])
  {
  }

  // ---- The two ends of a switch ----

  lemma NoEffect(s: State, a: S.Action)
    requires S.Step(s.sched, a) == s.sched
    ensures Step(s, Scheduler(a)) == s
  {
  }

  // The fiber x that a switch to it finds parked, and the one f that it leaves.
  lemma SwitchFits(s: S.State, w: W.State, t: nat)
    requires S.Runs(s, t) && S.Cur(s, t).pc.Resuming? && |s.fibers| == |w.pc| && Sizes(w.b, |w.pc|)
    requires var f, x := s.threads[t].cur, S.Cur(s, t).pc.w;
      && x < |s.fibers| && x != f && s.fibers[x].loc.Taken? && s.fibers[x].pc.ParkedOut? && s.fibers[x].flag
      && Agree(s.fibers[f], w.pc[f], w.b.place[f], w.b.switched[f])
      && Agree(s.fibers[x], w.pc[x], w.b.place[x], w.b.switched[x])
    ensures var s', f, x := S.Step(s, S.SwitchToReady(t)), s.threads[t].cur, S.Cur(s, t).pc.w;
      var w' := if w.pc[x].Parked? then W.Step(w, W.Resume(x)) else w;
      && Near(s.fibers, w.pc, w.b, s'.fibers, w'.pc, w'.b, f, x)
      && w'.counter == w.counter && (w.pc[x].Parked? ==> w' != w)
  {
  }

  lemma SwitchFacts(s: S.State, t: nat)
    requires S.Inv(s) && S.Runs(s, t) && S.Cur(s, t).pc.Resuming?
    ensures var f, x := s.threads[t].cur, S.Cur(s, t).pc.w;
      x < |s.fibers| && x != f && s.fibers[x].loc.Taken? && s.fibers[x].pc.ParkedOut? && s.fibers[x].flag
  {
    S.CurFacts(s, t);
    S.FiberFacts(s, S.Cur(s, t).pc.w);
  }

  lemma SwitchToReadyKeepsInv(s: State, t: nat)
    requires Inv(s) && S.Runs(s.sched, t) && S.Cur(s.sched, t).pc.Resuming?
    requires S.Step(s.sched, S.SwitchToReady(t)) != s.sched
    ensures Inv(Step(s, Scheduler(S.SwitchToReady(t))))
  {
    var a, f, x := S.SwitchToReady(t), s.sched.threads[t].cur, S.Cur(s.sched, t).pc.w;
    SwitchFacts(s.sched, t);
    AgreeFacts(s, f);
    AgreeFacts(s, x);
    SwitchFits(s.sched, s.wg, t);
    var b := if s.wg.pc[x].Parked? then Some(W.Resume(x)) else None;
    BothKeepInv(s, a, b, S.Step(s.sched, a), if b.Some? then W.Step(s.wg, b.value) else s.wg, f, x);
  }

  // A scheduler step together with its part b in the group.
  lemma BothKeepInv(s: State, a: S.Action, b: Option<W.Action>, s1: S.State, w1: W.State, f: nat, h: nat)
    requires Inv(s) && (a.SwitchToReady? || a.CleanUp?) && WgOfScheduler(s, a) == b
    requires b.Some? ==> b.value.Resume? || b.value.CleanUp?
    requires s1 == S.Step(s.sched, a) && w1 == (if b.Some? then W.Step(s.wg, b.value) else s.wg)
    requires Near(s.sched.fibers, s.wg.pc, s.wg.b, s1.fibers, w1.pc, w1.b, f, h) && w1.counter == s.wg.counter
    ensures Inv(Step(s, Scheduler(a)))
  {
    S.StepKeepsInv(s.sched, a);
    MarksKeep(s.sched, a, s.done);
    if b.Some? { W.StepKeepsInv(s.wg, b.value); }
    AgreeMove(s.sched.fibers, s.wg.pc, s.wg.b, s1.fibers, w1.pc, w1.b, f, h);
    BothShape(s, a, b, s1, w1);
  }

  lemma BothShape(s: State, a: S.Action, b: Option<W.Action>, s1: S.State, w1: W.State)
    requires (a.SwitchToReady? || a.CleanUp?) && WgOfScheduler(s, a) == b
    requires s1 == S.Step(s.sched, a) && w1 == (if b.Some? then W.Step(s.wg, b.value) else s.wg)
    ensures Step(s, Scheduler(a)) == s.(sched := s1, wg := w1)
    ensures b.Some? ==> exists f | 0 <= f < |s.wg.pc| :: s.wg.pc[f].Parked?
  {
  }

  // The fiber f whose resume point this is, and the one g it left behind.
  lemma CleanUpFits(s: S.State, s': S.State, w: W.State, f: nat, g: nat, dest: S.Destination)
    requires f < |s.fibers| && g < |s.fibers| && |s.fibers| == |w.pc| && Sizes(w.b, |w.pc|) && |s'.fibers| == |s.fibers|
    requires S.AtResumePoint(s.fibers[f].pc) && s.fibers[f].loc.NoBundle?
    requires s'.fibers[f] == s.fibers[f].(pc := if s.fibers[f].pc.ParkedOut? then S.InTask else S.Looping)
    requires Agree(s.fibers[f], w.pc[f], w.b.place[f], w.b.switched[f])
    requires Agree(s.fibers[g], w.pc[g], w.b.place[g], w.b.switched[g])
    requires g != f ==> && dest != S.Nowhere && s'.fibers[g] == S.Settle(s.fibers[g], dest)
                        && (if dest.ToPool? then s.fibers[g].pc.SwitchedOut?
                            else s.fibers[g].pc.ParkedOut? && !s.fibers[g].loc.NoBundle?)
    requires forall y | 0 <= y < |s.fibers| && y != f && y != g :: s'.fibers[y] == s.fibers[y]
    ensures var w' := if g != f && dest.ToWaiting? && w.pc[g].Parked? then W.Step(w, W.CleanUp(g)) else w;
      Near(s.fibers, w.pc, w.b, s'.fibers, w'.pc, w'.b, f, g) && w'.counter == w.counter
  {
  }

  lemma CleanUpFacts(s: S.State, t: nat)
    requires S.Inv(s) && S.Runs(s, t) && S.AtResumePoint(S.Cur(s, t).pc)
    ensures var f, th := s.threads[t].cur, s.threads[t];
      && S.Cur(s, t).loc.NoBundle? && S.ThreadOk(s.fibers, t, th)
      && (th.oldFiber.Some? <==> th.dest != S.Nowhere)
      && (th.oldFiber.Some? ==>
            var g := th.oldFiber.value;
            && g < |s.fibers| && g != f && (th.dest.ToWaiting? ==> th.flag == Some(g) && !s.fibers[g].flag)
            && (if th.dest.ToPool? then s.fibers[g].pc.SwitchedOut?
                else s.fibers[g].pc.ParkedOut? && !s.fibers[g].loc.NoBundle?))
  {
    S.CurFacts(s, t);
    S.ThreadFacts(s, t);
    if s.threads[t].oldFiber.Some? { S.FiberFacts(s, s.threads[t].oldFiber.value); }
  }

  lemma CleanUpNear(s: S.State, w: W.State, t: nat, f: nat, g: nat)
    requires S.Inv(s) && S.Runs(s, t) && S.AtResumePoint(S.Cur(s, t).pc) && |s.fibers| == |w.pc| && Sizes(w.b, |w.pc|)
    requires f == s.threads[t].cur && g == if s.threads[t].oldFiber.Some? then s.threads[t].oldFiber.value else f
    requires g < |w.pc| && Agree(s.fibers[f], w.pc[f], w.b.place[f], w.b.switched[f])
    requires Agree(s.fibers[g], w.pc[g], w.b.place[g], w.b.switched[g])
    ensures var w' := if g != f && s.threads[t].dest.ToWaiting? && w.pc[g].Parked? then W.Step(w, W.CleanUp(g)) else w;
      Near(s.fibers, w.pc, w.b, S.CleanUpStep(s, t).fibers, w'.pc, w'.b, f, g) && w'.counter == w.counter
  {
    CleanUpFacts(s, t);
    S.CleanUpShape(s, t);
    CleanUpFits(s, S.CleanUpStep(s, t), w, f, g, s.threads[t].dest);
  }

  lemma CleanUpKeepsInv(s: State, t: nat)
    requires Inv(s) && S.Runs(s.sched, t) && S.AtResumePoint(S.Cur(s.sched, t).pc)
    requires S.Step(s.sched, S.CleanUp(t)) != s.sched
    ensures Inv(Step(s, Scheduler(S.CleanUp(t))))
  {
    var a, f, th := S.CleanUp(t), s.sched.threads[t].cur, s.sched.threads[t];
    CleanUpFacts(s.sched, t);
    var g := if th.oldFiber.Some? then th.oldFiber.value else f;
    var b := if g != f && th.dest.ToWaiting? && ParkedOnGroup(s, g) then Some(W.CleanUp(g)) else None;
    var s1, w1 := S.Step(s.sched, a), if b.Some? then W.Step(s.wg, b.value) else s.wg;
    AgreeFacts(s, f);
    AgreeFacts(s, g);
    CleanUpNear(s.sched, s.wg, t, f, g);
    BothKeepInv(s, a, b, s1, w1, f, g);
  }

  // ---- Steps inside a call on the group ----

  // Where a step of the group's own code may go, as far as the scheduler can tell.
  predicate SameClass(pc: W.Pc, pc': W.Pc) {
    || pc'.Idle? || (Registering(pc) && Registering(pc')) || (W.InZeroingAdd(pc) && W.InZeroingAdd(pc'))
    || (Waiting(pc) && Waiting(pc')) || pc' == pc
  }

  // In Wait, before its bundle has been initialised.
  predicate Waiting(pc: W.Pc) {
    pc.WaitTop? || pc.WaitLoad? || pc.WaitCas? || pc.WaitCheck? || pc.WaitUnlockLoad? || pc.WaitUnlockStore?
    || pc.WaitEnqueueLoad? || pc.InitBundle?
  }

  predicate CallsScheduler(pc: W.Pc) {
    pc.InitBundle? || pc.SwitchAway? || pc.Pass?
  }

  ghost predicate GroupMove(w: W.State, w': W.State, f: nat)
    requires f < |w.pc| && Sizes(w.b, |w.pc|)
  {
    && |w'.pc| == |w.pc| && w'.pc == w.pc[f := w'.pc[f]] && SameClass(w.pc[f], w'.pc[f])
    && w'.counter == w.counter && Sizes(w'.b, |w.pc|) && w'.b.switched == w.b.switched
    && forall g | 0 <= g < |w.pc| :: w'.b.place[g].Ready? == w.b.place[g].Ready?
  }

  lemma WaitMoves(w: W.State, f: nat, ok: bool)
    requires f < |w.pc| && Sizes(w.b, |w.pc|) && W.PcOk(w.word, w.b, |w.pc|, f, w.pc[f])
    requires !CallsScheduler(w.pc[f]) && !W.Drains(w.pc[f])
    ensures GroupMove(w, W.RunStep(w, f, ok), f)
  {
  }

  lemma DrainMoves(w: W.State, f: nat, ok: bool)
    requires f < |w.pc| && ListOk(w.b, |w.pc|) && W.PcOk(w.word, w.b, |w.pc|, f, w.pc[f])
    requires !CallsScheduler(w.pc[f]) && W.Drains(w.pc[f])
    ensures GroupMove(w, W.RunStep(w, f, ok), f)
  {
    if w.pc[f].Drain? && w.pc[f].head.Some? { W.HeadIsListed(w.b, |w.pc|, w.pc[f].head.value); }
  }

  lemma GroupAgrees(fibers: seq<S.Fiber>, w: W.State, w': W.State, f: nat)
    requires f < |w.pc| && AllAgree(fibers, w.pc, w.b) && GroupMove(w, w', f)
    requires fibers[f].pc.InTask? || fibers[f].pc.TaskEnded? || fibers[f].pc.Parking?
    ensures AllAgree(fibers, w'.pc, w'.b)
  {
    assert Agree(fibers[f], w.pc[f], w.b.place[f], w.b.switched[f]);
    AgreeMove(fibers, w.pc, w.b, fibers, w'.pc, w'.b, f, f);
  }

  lemma GroupStepAgrees(s: State, f: nat, ok: bool)
    requires Inv(s) && f < |s.wg.pc| && !CallsScheduler(s.wg.pc[f])
    requires s.sched.fibers[f].pc.InTask? || s.sched.fibers[f].pc.TaskEnded? || s.sched.fibers[f].pc.Parking?
    ensures AllAgree(s.sched.fibers, W.RunStep(s.wg, f, ok).pc, W.RunStep(s.wg, f, ok).b)
  {
    W.Facts(s.wg, f);
    if W.Drains(s.wg.pc[f]) { DrainMoves(s.wg, f, ok); } else { WaitMoves(s.wg, f, ok); }
    GroupAgrees(s.sched.fibers, s.wg, W.RunStep(s.wg, f, ok), f);
  }

  lemma GroupShape(s: State, t: nat, ok: bool)
    requires Enabled(s, Group(t, ok)) && !CallsScheduler(s.wg.pc[Cur(s, t)])
    ensures Step(s, Group(t, ok)) == s.(wg := W.RunStep(s.wg, Cur(s, t), ok))
  {
  }

  lemma GroupCounts(w: W.State, f: nat, ok: bool, tasks: seq<S.TaskState>, done: seq<bool>, started: bool)
    requires f < |w.pc| && |done| <= |tasks| && CountOk(w.counter, w.pc, tasks, done, started)
    ensures CountOk(W.RunStep(w, f, ok).counter, W.RunStep(w, f, ok).pc, tasks, done, started)
  {
    CounterStays(w, f, ok);
    if !started { EarlyWait(w, f, ok); }
  }

  lemma GroupKeepsInv(s: State, t: nat, ok: bool)
    requires Inv(s) && Enabled(s, Group(t, ok)) && !CallsScheduler(s.wg.pc[Cur(s, t)])
    ensures Inv(Step(s, Group(t, ok)))
  {
    var f := Cur(s, t);
    W.RunKeepsInv(s.wg, f, ok);
    GroupStepAgrees(s, f, ok);
    GroupCounts(s.wg, f, ok, s.sched.tasks, s.done, s.adder.Some?);
    GroupShape(s, t, ok);
  }

  lemma EarlyWait(w: W.State, f: nat, ok: bool)
    requires f < |w.pc| && w.counter == 0 && (w.pc[f].Idle? || w.pc[f].WaitTop?)
    ensures W.RunStep(w, f, ok).pc == w.pc[f := W.Idle]
  {
    assert w.pc[f].Idle? ==> w.pc[f := W.Idle] == w.pc;
  }

  // The fiber a group call hands to AddReadyFiber has its bundle registered.
  lemma HandedIsRegistered(s: State, f: nat)
    requires Inv(s) && f < |s.wg.pc| && s.wg.pc[f].Pass?
    ensures var h := s.wg.pc[f].h;
      && h < |s.sched.fibers| && h != f && s.sched.fibers[h].loc.Registered?
      && s.sched.fibers[h].readied < s.sched.fibers[h].waits
      && (Registering(s.wg.pc[h]) || s.wg.pc[h].Parked?)
  {
    W.Facts(s.wg, f);
    var h := s.wg.pc[f].h;
    W.Facts(s.wg, h);
    AgreeFacts(s, h);
    S.FiberFacts(s.sched, h);
  }

  lemma PassFits(s: S.State, w: W.State, t: nat, f: nat, ok: bool)
    requires S.Runs(s, t) && f == s.threads[t].cur && |s.fibers| == |w.pc| && Sizes(w.b, |w.pc|) && w.pc[f].Pass?
    requires s.fibers[f].pc.InTask? || s.fibers[f].pc.TaskEnded?
    requires var h := w.pc[f].h;
      && h < |s.fibers| && h != f && s.fibers[h].loc.Registered? && s.fibers[h].readied < s.fibers[h].waits
      && (Registering(w.pc[h]) || w.pc[h].Parked?)
      && Agree(s.fibers[h], w.pc[h], w.b.place[h], w.b.switched[h])
    ensures var h := w.pc[f].h; var s', w' := S.Step(s, S.AddReady(t, h)), W.RunStep(w, f, ok);
      Near(s.fibers, w.pc, w.b, s'.fibers, w'.pc, w'.b, f, h) && s' != s
  {
    PassSched(s, t, w.pc[f].h);
    PassGroup(w, f, ok);
  }

  lemma PassSched(s: S.State, t: nat, h: nat)
    requires S.Runs(s, t) && (S.Cur(s, t).pc.InTask? || S.Cur(s, t).pc.TaskEnded?)
    requires h < |s.fibers| && h != s.threads[t].cur && s.fibers[h].readied < s.fibers[h].waits
    ensures var s' := S.Step(s, S.AddReady(t, h));
      && s' != s && |s'.fibers| == |s.fibers|
      && (forall g | 0 <= g < |s.fibers| && g != h :: s'.fibers[g] == s.fibers[g])
      && s'.fibers[h].loc.Boxed? && s'.fibers[h].pc == s.fibers[h].pc && s'.fibers[h].flag == s.fibers[h].flag
  {
    assert S.Step(s, S.AddReady(t, h)).fibers[h].readied != s.fibers[h].readied;
  }

  lemma PassGroup(w: W.State, f: nat, ok: bool)
    requires f < |w.pc| && w.pc[f].Pass? && w.pc[f].h < |w.pc| && Sizes(w.b, |w.pc|)
    ensures var h, w' := w.pc[f].h, W.RunStep(w, f, ok);
      && w'.pc == w.pc[f := W.Drain(w.pc[f].rest)] && w'.b == w.b.(place := w'.b.place)
      && w'.b.place == w.b.place[h := Ready]
  {
  }

  lemma ParkFits(s: S.State, w: W.State, t: nat, f: nat, ok: bool, a: S.Action)
    requires S.Runs(s, t) && f == s.threads[t].cur && |s.fibers| == |w.pc| && Sizes(w.b, |w.pc|)
    requires w.pc[f].InitBundle? || w.pc[f].SwitchAway?
    requires a.t == t && (if w.pc[f].InitBundle? then a.InitBundle? else a.EnterSwitch?)
    requires Agree(s.fibers[f], w.pc[f], w.b.place[f], w.b.switched[f])
    requires w.pc[f].InitBundle? ==> w.b.place[f] == Awake
    ensures var s', w' := S.Step(s, a), W.RunStep(w, f, ok);
      Near(s.fibers, w.pc, w.b, s'.fibers, w'.pc, w'.b, f, f) && s' != s
  {
  }

  lemma CallAgrees(s: State, t: nat, ok: bool)
    requires Inv(s) && Enabled(s, Group(t, ok)) && CallsScheduler(s.wg.pc[Cur(s, t)])
    ensures SchedPart(s, Group(t, ok)).Some?
    ensures var s', w' := S.Step(s.sched, SchedPart(s, Group(t, ok)).value), W.RunStep(s.wg, Cur(s, t), ok);
      AllAgree(s'.fibers, w'.pc, w'.b) && s' != s.sched
  {
    var f, a := Cur(s, t), SchedPart(s, Group(t, ok)).value;
    AgreeFacts(s, f);
    if s.wg.pc[f].Pass? {
      var h := s.wg.pc[f].h;
      HandedIsRegistered(s, f);
      AgreeFacts(s, h);
      PassFits(s.sched, s.wg, t, f, ok);
      AgreeMove(s.sched.fibers, s.wg.pc, s.wg.b, S.Step(s.sched, a).fibers,
                W.RunStep(s.wg, f, ok).pc, W.RunStep(s.wg, f, ok).b, f, h);
    } else {
      W.Facts(s.wg, f);
      ParkFits(s.sched, s.wg, t, f, ok, a);
      AgreeMove(s.sched.fibers, s.wg.pc, s.wg.b, S.Step(s.sched, a).fibers,
                W.RunStep(s.wg, f, ok).pc, W.RunStep(s.wg, f, ok).b, f, f);
    }
  }

  lemma CallShape(s: State, t: nat, ok: bool, a: S.Action)
    requires Enabled(s, Group(t, ok)) && SchedPart(s, Group(t, ok)) == Some(a)
    ensures Step(s, Group(t, ok)) == s.(sched := S.Step(s.sched, a), wg := W.RunStep(s.wg, Cur(s, t), ok))
  {
  }

  lemma CallKeepsInv(s: State, t: nat, ok: bool)
    requires Inv(s) && Enabled(s, Group(t, ok)) && CallsScheduler(s.wg.pc[Cur(s, t)])
    ensures Inv(Step(s, Group(t, ok)))
  {
    var a := SchedPart(s, Group(t, ok)).value;
    CallAgrees(s, t, ok);
    W.StepKeepsInv(s.wg, W.Run(Cur(s, t), ok));
    S.StepKeepsInv(s.sched, a);
    MarksKeep(s.sched, a, s.done);
    CounterStays(s.wg, Cur(s, t), ok);
    CallShape(s, t, ok, a);
  }

  lemma CounterStays(w: W.State, f: nat, ok: bool)
    requires f < |w.pc|
    ensures W.RunStep(w, f, ok).counter == w.counter
  {
  }

  // ---- Starting a call on the group ----

  // Before AddTasks, nobody can be waking or about to return.
  lemma AddTasksIsAllowed(s: State, t: nat)
    requires Inv(s) && Enabled(s, AddTasks(t))
    ensures W.Allowed(s.wg, W.Add(Cur(s, t), |s.done|))
  {
    forall f | 0 <= f < |s.wg.pc|
      ensures !W.Wakes(s.wg.pc[f]) && !W.BoundToReturn(s.wg.pc[f], s.wg.b.place[f])
    {
      W.Facts(s.wg, f);
    }
  }

  lemma UndoneLess(done: seq<bool>, i: nat)
    requires i < |done| && !done[i]
    ensures |Undone(done)| >= 1 && |Undone(done[i := true])| == |Undone(done)| - 1
  {
    assert i in Undone(done);
    assert Undone(done[i := true]) == Undone(done) - {i};
  }

  lemma DoneFacts(s: State, t: nat)
    requires Inv(s) && Enabled(s, Done(t))
    ensures s.adder.Some? && 1 <= s.wg.counter == |Undone(s.done)| <= W.MAX_COUNT
    ensures Over(s.sched.tasks[S.Cur(s.sched, t).job.value].loc)
    ensures |Undone(s.done[S.Cur(s.sched, t).job.value := true])| == s.wg.counter - 1
  {
    var i := S.Cur(s.sched, t).job.value;
    assert s.sched.tasks[i].loc.Ended? by { S.CurFacts(s.sched, t); }
    UndoneLess(s.done, i);
    W.Facts(s.wg, Cur(s, t));
  }

  lemma CallFits(fibers: seq<S.Fiber>, w: W.State, f: nat, a: W.Action)
    requires AllAgree(fibers, w.pc, w.b) && f < |w.pc| && w.pc[f].Idle? && a.f == f
    requires (a.Add? && 0 <= w.counter + a.delta <= W.MAX_COUNT) || a.StartWait?
    requires fibers[f].pc.InTask? || (a.Add? && fibers[f].pc.TaskEnded?)
    ensures var w' := W.Step(w, a);
      && AllAgree(fibers, w'.pc, w'.b) && w'.pc == w.pc[f := w'.pc[f]]
      && (a.StartWait? ==> w'.pc[f].WaitTop?)
      && w'.counter == (if a.Add? then w.counter + a.delta else w.counter)
  {
    if a.Add? { W.WrapInRange(w.counter + a.delta); }
    var w' := W.Step(w, a);
    assert w'.b == w.b && (w'.pc[f].Idle? || w'.pc[f].WaitTop? || w'.pc[f].AddFast?);
    AgreeMove(fibers, w.pc, w.b, fibers, w'.pc, w'.b, f, f);
  }

  lemma CallStarts(s: State, t: nat, a: W.Action)
    requires Inv(s) && OutsideGroup(s, t) && W.Allowed(s.wg, a) && (a.Add? || a.StartWait?) && a.f == Cur(s, t)
    requires S.Cur(s.sched, t).pc.InTask? || (a.Add? && S.Cur(s.sched, t).pc.TaskEnded?)
    ensures var w' := W.Step(s.wg, a);
      && W.Inv(w') && AllAgree(s.sched.fibers, w'.pc, w'.b) && w'.pc == s.wg.pc[a.f := w'.pc[a.f]]
      && w'.counter == (if a.Add? then s.wg.counter + a.delta else s.wg.counter)
      && (a.StartWait? ==> w'.pc[a.f].WaitTop?)
  {
    W.StepKeepsInv(s.wg, a);
    CallFits(s.sched.fibers, s.wg, a.f, a);
  }

  lemma AddTasksKeepsInv(s: State, t: nat)
    requires Inv(s) && Enabled(s, AddTasks(t))
    ensures Inv(Step(s, AddTasks(t)))
  {
    AddTasksIsAllowed(s, t);
    CallStarts(s, t, W.Add(Cur(s, t), |s.done|));
  }

  lemma StartWaitKeepsInv(s: State, t: nat, pinned: bool)
    requires Inv(s) && Enabled(s, StartWait(t, pinned))
    ensures Inv(Step(s, StartWait(t, pinned)))
  {
    CallStarts(s, t, W.StartWait(Cur(s, t)));
  }

  lemma DoneKeepsInv(s: State, t: nat)
    requires Inv(s) && Enabled(s, Done(t))
    ensures Inv(Step(s, Done(t)))
  {
    DoneFacts(s, t);
    CallStarts(s, t, W.Add(Cur(s, t), -1));
  }

  // ---- Every step keeps the invariant ----

  lemma StepKeepsInv(s: State, a: Action)
    requires Inv(s)
    ensures Inv(Step(s, a))
  {
    if Enabled(s, a) {
      match a
      case AddTasks(t) => AddTasksKeepsInv(s, t);
      case StartWait(t, pinned) => StartWaitKeepsInv(s, t, pinned);
      case Done(t) => DoneKeepsInv(s, t);
      case Group(t, ok) =>
        if CallsScheduler(s.wg.pc[Cur(s, t)]) { CallKeepsInv(s, t, ok); }
        else { GroupKeepsInv(s, t, ok); }
      case Scheduler(act) =>
        if S.Step(s.sched, act) == s.sched { NoEffect(s, act); }
        else if act.SwitchToReady? { SwitchToReadyKeepsInv(s, act.t); }
        else if act.CleanUp? { CleanUpKeepsInv(s, act.t); }
        else if IsInternal(act) { InternalKeepsInv(s, act); }
        else { UserKeepsInv(s, act); }
    }
  }

  lemma {:induction false} UndoneAtFirst(n: nat)
    ensures |Undone(seq(n, _ => false))| == n
  {
    if n == 0 {
      assert Undone(seq(n, _ => false)) == {};
    } else {
      UndoneAtFirst(n - 1);
      assert Undone(seq(n, _ => false)) == Undone(seq(n - 1, _ => false)) + {n - 1};
    }
  }

  lemma InitInv(threads: nat, fibers: nat, tasks: nat, n: nat)
    requires threads >= 1 && fibers >= 1 && n <= tasks && n <= W.MAX_COUNT
    ensures Inv(Init(threads, fibers, tasks, n))
  {
    S.InitInv(threads, fibers, tasks);
    W.InitInv(fibers);
    UndoneAtFirst(n);
  }

  lemma {:induction false} ExecKeepsInv(threads: nat, fibers: nat, tasks: nat, n: nat, acts: seq<Action>)
    requires threads >= 1 && fibers >= 1 && n <= tasks && n <= W.MAX_COUNT
    ensures Inv(Exec(Init(threads, fibers, tasks, n), acts)) && |Exec(Init(threads, fibers, tasks, n), acts).done| == n
  {
    if acts == [] {
      InitInv(threads, fibers, tasks, n);
    } else {
      var before := acts[..|acts| - 1];
      ExecKeepsInv(threads, fibers, tasks, n, before);
      StepKeepsInv(Exec(Init(threads, fibers, tasks, n), before), acts[|acts| - 1]);
    }
  }

  // ---- What every run guarantees ----

  // Not yet pushed, queued, held by a search, running, or over but not yet decremented.
  predicate Outstanding(s: State, i: nat)
    requires i < |s.done| && i < |s.sched.tasks|
  {
    match s.sched.tasks[i].loc
    case Finished => false
    case Ended(_) => !s.done[i]
    case _ => true
  }

  // From AddTasks on, the counter is the number of the group's outstanding tasks.
  lemma CounterCountsTasks(threads: nat, fibers: nat, tasks: nat, n: nat, acts: seq<Action>)
    requires threads >= 1 && fibers >= 1 && n <= tasks && n <= W.MAX_COUNT
    requires Exec(Init(threads, fibers, tasks, n), acts).adder.Some?
    ensures var s := Exec(Init(threads, fibers, tasks, n), acts);
      && |s.done| == n <= |s.sched.tasks|
      && s.wg.counter == |set i: nat | i < n && Outstanding(s, i)|
  {
    ExecKeepsInv(threads, fibers, tasks, n, acts);
    var s := Exec(Init(threads, fibers, tasks, n), acts);
    assert Undone(s.done) == set i: nat | i < n && Outstanding(s, i);
  }

  // A Wait that returns after AddTasks does so only when each of the n tasks has run, once, and is over,
  // and no queue, buffer or hand holds it.
  lemma WaitReturnsAfterAllTasks(threads: nat, fibers: nat, tasks: nat, n: nat, acts: seq<Action>, a: Action, f: nat)
    requires threads >= 1 && fibers >= 1 && n <= tasks && n <= W.MAX_COUNT
    requires var s := Exec(Init(threads, fibers, tasks, n), acts);
      && s.adder.Some? && f < |s.wg.pc| && W.InWait(s.wg.pc[f])
      && f < |Step(s, a).wg.pc| && !W.InWait(Step(s, a).wg.pc[f])
    ensures var s := Exec(Init(threads, fibers, tasks, n), acts);
      && n <= |s.sched.tasks|
      && (forall i {:trigger s.sched.tasks[i]} | 0 <= i < n :: s.sched.tasks[i].runs == 1 && Over(s.sched.tasks[i].loc))
      && (forall i, p | 0 <= i < n :: !S.Holds(s.sched, p, S.Task(i)))
      && a.Group? && S.IsCurrentOn(s.sched, a.t, f)
  {
    ExecKeepsInv(threads, fibers, tasks, n, acts);
    var s := Exec(Init(threads, fibers, tasks, n), acts);
    W.WaitEndsOnlyHere(s.wg, WgPart(s, a).value, f);
    W.Facts(s.wg, f);
    assert Undone(s.done) == {};
    forall i | 0 <= i < n
      ensures s.sched.tasks[i].runs == 1 && Over(s.sched.tasks[i].loc)
      ensures forall p :: !S.Holds(s.sched, p, S.Task(i))
    {
      assert i !in Undone(s.done);
      S.TaskFacts(s.sched, i);
      S.ItemIsOnce(s.sched, S.Task(i));
    }
  }

  // Calls on the group take effect: Wait has begun, AddTasks counts n tasks and Done one less.
  lemma CallsTakeEffect(threads: nat, fibers: nat, tasks: nat, n: nat, acts: seq<Action>, a: Action)
    requires threads >= 1 && fibers >= 1 && n <= tasks && n <= W.MAX_COUNT
    requires Enabled(Exec(Init(threads, fibers, tasks, n), acts), a) && (a.StartWait? || a.AddTasks? || a.Done?)
    ensures var s := Exec(Init(threads, fibers, tasks, n), acts);
      var s', f := Step(s, a), Cur(s, a.t);
      && f < |s'.wg.pc|
      && (a.StartWait? ==> W.InWait(s'.wg.pc[f]) && s'.pinning == Set(s.pinning, f, a.pinned))
      && (a.AddTasks? ==> s'.adder == Some(f) && s'.wg.counter == n)
      && (a.Done? ==>
            && S.Cur(s.sched, a.t).job.Some? && S.Cur(s.sched, a.t).job.value < n
            && s'.wg.counter == s.wg.counter - 1 && s'.done == s.done[S.Cur(s.sched, a.t).job.value := true])
  {
    ExecKeepsInv(threads, fibers, tasks, n, acts);
    var s := Exec(Init(threads, fibers, tasks, n), acts);
    match a
    case StartWait(t, _) => CallStarts(s, t, W.StartWait(Cur(s, t)));
    case AddTasks(t) =>
      AddTasksIsAllowed(s, t);
      CallStarts(s, t, W.Add(Cur(s, t), n));
    case Done(t) =>
      DoneFacts(s, t);
      CallStarts(s, t, W.Add(Cur(s, t), -1));
  }

  // The two machines never disagree: when an action is a step of both, both take it.
  lemma BothTakeTheStep(threads: nat, fibers: nat, tasks: nat, n: nat, acts: seq<Action>, a: Action)
    requires threads >= 1 && fibers >= 1 && n <= tasks && n <= W.MAX_COUNT
    requires var s := Exec(Init(threads, fibers, tasks, n), acts);
      Enabled(s, a) && SchedPart(s, a).Some? && WgPart(s, a).Some?
    ensures var s := Exec(Init(threads, fibers, tasks, n), acts);
      && S.Step(s.sched, SchedPart(s, a).value) != s.sched
      && W.Step(s.wg, WgPart(s, a).value) != s.wg
  {
    ExecKeepsInv(threads, fibers, tasks, n, acts);
    var s := Exec(Init(threads, fibers, tasks, n), acts);
    match a
    case Group(t, ok) =>
      CallAgrees(s, t, ok);
      CallsMove(s.wg, Cur(s, t), ok);
    case Scheduler(act) =>
      if act.CleanUp? { CleanUpMoves(s, act.t); } else { SwitchMoves(s, act.t); }
    case _ =>
  }

  lemma CallsMove(w: W.State, f: nat, ok: bool)
    requires f < |w.pc| && CallsScheduler(w.pc[f])
    ensures W.RunStep(w, f, ok).pc[f] != w.pc[f]
  {
  }

  lemma SwitchMoves(s: State, t: nat)
    requires Inv(s) && WgOfScheduler(s, S.SwitchToReady(t)).Some?
    ensures W.Step(s.wg, WgOfScheduler(s, S.SwitchToReady(t)).value) != s.wg
  {
    SwitchFacts(s.sched, t);
    AgreeFacts(s, s.sched.threads[t].cur);
    AgreeFacts(s, S.Cur(s.sched, t).pc.w);
    SwitchFits(s.sched, s.wg, t);
  }

  lemma CleanUpMoves(s: State, t: nat)
    requires Inv(s) && WgOfScheduler(s, S.CleanUp(t)).Some?
    ensures W.Step(s.wg, WgOfScheduler(s, S.CleanUp(t)).value) != s.wg
  {
    CleanUpFacts(s.sched, t);
    var g := s.sched.threads[t].flag.value;
    AgreeFacts(s, g);
    assert !s.wg.b.switched[g] && W.Step(s.wg, W.CleanUp(g)).b.switched[g];
  }
}

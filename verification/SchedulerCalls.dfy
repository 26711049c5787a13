/** What callers of the scheduler get: a wait that asks to be pinned is, and no other; a task goes to the
    queue of the priority it was added with, and stays there until it is taken; what a search could not
    use goes back in the order the source restores. */
module SchedulerCalls {
  import opened Options
  import opened WaiterList
  import opened SchedulerMachine
  import D = DequeMachine

  // ---- Pinning ----

  // The request of a fiber's latest wait: the thread it waited on, and whether it asked to be pinned.
  datatype Request = Request(t: nat, pinned: bool)

  // InitWaitingFiberBundle called on thread t by fiber f.
  predicate Inits(s: State, a: Action, f: nat) {
    a.InitBundle? && Runs(s, a.t) && s.threads[a.t].cur == f && Cur(s, a.t).pc.InTask?
  }

  function LastRequest(s0: State, acts: seq<Action>, f: nat): Option<Request> {
    if acts == [] then None
    else After(Exec(s0, acts[..|acts| - 1]), acts[|acts| - 1], f, LastRequest(s0, acts[..|acts| - 1], f))
  }

  function After(s: State, a: Action, f: nat, r: Option<Request>): Option<Request> {
    if Inits(s, a, f) then Some(Request(a.t, a.pinned)) else r
  }

  function PinOf(r: Option<Request>): Link {
    if r.Some? && r.value.pinned then Some(r.value.t) else None
  }

  lemma {:induction false} PinIsAsAsked(threads: nat, fibers: nat, tasks: nat, acts: seq<Action>, f: nat)
    requires threads >= 1 && f < fibers
    ensures var s := Exec(Init(threads, fibers, tasks), acts);
      |s.fibers| == fibers && s.fibers[f].pin == PinOf(LastRequest(Init(threads, fibers, tasks), acts, f))
  {
    if acts == [] {
      assert Init(threads, fibers, tasks).fibers[f] == if f == 0 then MAIN else POOLED;
    } else {
      var before, a := acts[..|acts| - 1], acts[|acts| - 1];
      PinIsAsAsked(threads, fibers, tasks, before, f);
      StepKeepsPin(Exec(Init(threads, fibers, tasks), before), a, f);
    }
  }

  // What a step that is not f's InitWaitingFiberBundle leaves alone.
  predicate SameWait(x: Fiber, y: Fiber) {
    y.pin == x.pin && y.waits == x.waits
  }

  lemma StepKeepsPin(s: State, a: Action, f: nat)
    requires f < |s.fibers|
    ensures |Step(s, a).fibers| == |s.fibers|
    ensures if Inits(s, a, f) then Step(s, a).fibers[f].pin == (if a.pinned then Some(a.t) else None)
            else SameWait(s.fibers[f], Step(s, a).fibers[f])
  {
    if Source(s, a).Some? { TakingKeepsPin(s, a, f); }
    else if Puts(a) { PuttingKeepsPin(s, a, f); }
    else if a.BootReserve? || a.BootSwitch? || a.Reserve? || IsSwitch(a) || a.CleanUp? { SwitchingKeepsPin(s, a, f); }
  }

  lemma TakingKeepsPin(s: State, a: Action, f: nat)
    requires f < |s.fibers| && Source(s, a).Some?
    ensures |Step(s, a).fibers| == |s.fibers| && SameWait(s.fibers[f], Step(s, a).fibers[f])
  {
  }

  lemma PuttingKeepsPin(s: State, a: Action, f: nat)
    requires f < |s.fibers| && Puts(a)
    ensures |Step(s, a).fibers| == |s.fibers| && SameWait(s.fibers[f], Step(s, a).fibers[f])
  {
  }

  lemma SwitchingKeepsPin(s: State, a: Action, f: nat)
    requires f < |s.fibers| && (a.BootReserve? || a.BootSwitch? || a.Reserve? || IsSwitch(a) || a.CleanUp?)
    ensures |Step(s, a).fibers| == |s.fibers| && SameWait(s.fibers[f], Step(s, a).fibers[f])
  {
  }

  // A fiber whose latest wait asked to be pinned resumes on the thread it waited on.
  lemma PinnedResumesThere(threads: nat, fibers: nat, tasks: nat, acts: seq<Action>, u: nat, w: nat)
    requires threads >= 1 && fibers >= 1
    requires var s := Exec(Init(threads, fibers, tasks), acts);
      Step(s, SwitchToReady(u)) != s && IsCurrentOn(Step(s, SwitchToReady(u)), u, w)
    ensures var r := LastRequest(Init(threads, fibers, tasks), acts, w);
      r.Some? && (r.value.pinned ==> r.value.t == u)
  {
    ExecKeepsInv(threads, fibers, tasks, acts);
    FibersStay(threads, fibers, tasks, acts);
    ResumesWhere(Exec(Init(threads, fibers, tasks), acts), u, w);
    PinIsAsAsked(threads, fibers, tasks, acts, w);
    WaitedBefore(threads, fibers, tasks, acts, w);
  }

  lemma ResumesWhere(s: State, u: nat, w: nat)
    requires Inv(s) && Step(s, SwitchToReady(u)) != s && IsCurrentOn(Step(s, SwitchToReady(u)), u, w)
    ensures w < |s.fibers| && s.fibers[w].waits > 0 && (s.fibers[w].pin.Some? ==> s.fibers[w].pin.value == u)
  {
    CurFacts(s, u);
    FiberFacts(s, Cur(s, u).pc.w);
  }

  lemma {:induction false} FibersStay(threads: nat, fibers: nat, tasks: nat, acts: seq<Action>)
    requires threads >= 1 && fibers >= 1
    ensures |Exec(Init(threads, fibers, tasks), acts).fibers| == fibers
  {
    if acts != [] {
      FibersStay(threads, fibers, tasks, acts[..|acts| - 1]);
      StepKeepsPin(Exec(Init(threads, fibers, tasks), acts[..|acts| - 1]), acts[|acts| - 1], 0);
    }
  }

  lemma {:induction false} WaitedBefore(threads: nat, fibers: nat, tasks: nat, acts: seq<Action>, f: nat)
    requires threads >= 1 && f < fibers
    ensures var s := Exec(Init(threads, fibers, tasks), acts);
      |s.fibers| == fibers && (s.fibers[f].waits > 0 ==> LastRequest(Init(threads, fibers, tasks), acts, f).Some?)
  {
    if acts == [] {
      assert Init(threads, fibers, tasks).fibers[f] == if f == 0 then MAIN else POOLED;
    } else {
      var before, a := acts[..|acts| - 1], acts[|acts| - 1];
      WaitedBefore(threads, fibers, tasks, before, f);
      StepKeepsPin(Exec(Init(threads, fibers, tasks), before), a, f);
    }
  }

  // AddReadyFiber called on thread a.t for fiber w's bundle, as its caller may: once for each wait.
  predicate Readies(s: State, a: Action, w: nat) {
    && a.AddReady? && a.w == w && Runs(s, a.t) && (Cur(s, a.t).pc.InTask? || Cur(s, a.t).pc.TaskEnded?)
    && w < |s.fibers| && s.fibers[w].readied < s.fibers[w].waits
  }

  // It puts a fiber that did not ask to be pinned on the calling thread's own queue, for any thread to
  // take, and one that did on the list of the thread it waited on.
  lemma AddReadyHeedsRequest(threads: nat, fibers: nat, tasks: nat, acts: seq<Action>, u: nat, w: nat)
    requires threads >= 1 && fibers >= 1
    requires Readies(Exec(Init(threads, fibers, tasks), acts), AddReady(u, w), w)
    ensures var s := Exec(Init(threads, fibers, tasks), acts);
      var r := LastRequest(Init(threads, fibers, tasks), acts, w);
      && r.Some?
      && var b := if r.value.pinned then PinnedQ(r.value.t) else HiQ(u);
         Step(s, AddReady(u, w)).boxes == s.boxes[b := Content(s.boxes, b) + [ReadyFiber(w)]]
  {
    FibersStay(threads, fibers, tasks, acts);
    PinIsAsAsked(threads, fibers, tasks, acts, w);
    WaitedBefore(threads, fibers, tasks, acts, w);
    ReadyGoes(Exec(Init(threads, fibers, tasks), acts), u, w);
  }

  lemma ReadyGoes(s: State, u: nat, w: nat)
    requires Readies(s, AddReady(u, w), w)
    ensures s.fibers[w].waits > 0
    ensures var b := if s.fibers[w].pin.Some? then PinnedQ(s.fibers[w].pin.value) else HiQ(u);
      Step(s, AddReady(u, w)).boxes == s.boxes[b := Content(s.boxes, b) + [ReadyFiber(w)]]
  {
  }

  // ---- Priorities ----

  // AddTask called for task i on thread a.t.
  predicate Adds(s: State, a: Action, i: nat) {
    a.PushTask? && a.i == i && Runs(s, a.t) && Cur(s, a.t).pc.InTask? && i < |s.tasks| && s.tasks[i].pushes == 0
  }

  // The queue it is to go to.
  function QueueAsked(s0: State, acts: seq<Action>, i: nat): Option<Box> {
    if acts == [] then None
    else
      var s, a := Exec(s0, acts[..|acts| - 1]), acts[|acts| - 1];
      if Adds(s, a, i) then Some(if a.high then HiQ(a.t) else LoQ(a.t)) else QueueAsked(s0, acts[..|acts| - 1], i)
  }

  // A task is on no queue but that of the thread that added it, of the priority it was added with.
  lemma TaskIsWhereAdded(threads: nat, fibers: nat, tasks: nat, acts: seq<Action>, i: nat, b: Box, j: nat)
    requires threads >= 1 && fibers >= 1
    requires Holds(Exec(Init(threads, fibers, tasks), acts), AtPosition(b, j), Task(i))
    ensures QueueAsked(Init(threads, fibers, tasks), acts, i) == Some(b)
  {
    ExecKeepsInv(threads, fibers, tasks, acts);
    ItemFits(Exec(Init(threads, fibers, tasks), acts), b, j);
    HistoryIsWhereAdded(threads, fibers, tasks, acts, i);
  }

  lemma {:induction false} HistoryIsWhereAdded(threads: nat, fibers: nat, tasks: nat, acts: seq<Action>, i: nat)
    requires threads >= 1 && fibers >= 1
    ensures var s := Exec(Init(threads, fibers, tasks), acts);
      BoxOf(s, Task(i)).Some? ==> QueueAsked(Init(threads, fibers, tasks), acts, i) == BoxOf(s, Task(i))
  {
    if acts != [] {
      var before, a := acts[..|acts| - 1], acts[|acts| - 1];
      HistoryIsWhereAdded(threads, fibers, tasks, before, i);
      ExecKeepsInv(threads, fibers, tasks, before);
      StepMovesTask(Exec(Init(threads, fibers, tasks), before), a, i);
    }
  }

  // A task comes to a queue only when it is added.
  lemma StepMovesTask(s: State, a: Action, i: nat)
    requires Inv(s)
    ensures var b := BoxOf(Step(s, a), Task(i));
      b.Some? ==> b == if Adds(s, a, i) then Some(if a.high then HiQ(a.t) else LoQ(a.t)) else BoxOf(s, Task(i))
  {
    if Puts(a) {
      if a.PutBack? && Runs(s, a.t) { BufferHoldsFibers(s, a.t); }
      PuttingMovesTask(s, a, i);
    } else {
      OthersMoveTask(s, a, i);
    }
  }

  lemma PuttingMovesTask(s: State, a: Action, i: nat)
    requires Puts(a)
    requires a.PutBack? && Runs(s, a.t) ==>
      var c := Content(s.boxes, TaskBuffer(s.threads[a.t].cur));
      c != [] ==> c[|c| - 1].ReadyFiber?
    ensures var b := BoxOf(Step(s, a), Task(i));
      b.Some? ==> b == if Adds(s, a, i) then Some(if a.high then HiQ(a.t) else LoQ(a.t)) else BoxOf(s, Task(i))
  {
  }

  lemma OthersMoveTask(s: State, a: Action, i: nat)
    requires !Puts(a)
    ensures BoxOf(Step(s, a), Task(i)).Some? ==> BoxOf(Step(s, a), Task(i)) == BoxOf(s, Task(i))
  {
  }

  lemma BufferHoldsFibers(s: State, t: nat)
    requires Inv(s) && Runs(s, t)
    ensures var c := Content(s.boxes, TaskBuffer(s.threads[t].cur)); c != [] ==> c[|c| - 1].ReadyFiber?
  {
    var c := Content(s.boxes, TaskBuffer(s.threads[t].cur));
    if c != [] {
      ItemFits(s, TaskBuffer(s.threads[t].cur), |c| - 1);
      if c[|c| - 1].Task? { TaskFacts(s, c[|c| - 1].i); }
    }
  }

  // ---- Counting calls ----

  // How often AddTask was called for a task, and AddReadyFiber for a fiber.
  function Calls(s0: State, acts: seq<Action>, x: Item): nat {
    if acts == [] then 0
    else
      var s, a := Exec(s0, acts[..|acts| - 1]), acts[|acts| - 1];
      Calls(s0, acts[..|acts| - 1], x) + (if IsCallFor(s, a, x) then 1 else 0)
  }

  predicate IsCallFor(s: State, a: Action, x: Item) {
    match x
    case Task(i) => Adds(s, a, i)
    case ReadyFiber(w) => Readies(s, a, w)
  }

  function Counted(s: State, x: Item): nat {
    match x
    case Task(i) => if i < |s.tasks| then s.tasks[i].pushes else 0
    case ReadyFiber(w) => if w < |s.fibers| then s.fibers[w].readied else 0
  }

  lemma {:induction false} CallsAreCounted(threads: nat, fibers: nat, tasks: nat, acts: seq<Action>, x: Item)
    requires threads >= 1 && fibers >= 1
    ensures Calls(Init(threads, fibers, tasks), acts, x) == Counted(Exec(Init(threads, fibers, tasks), acts), x)
  {
    if acts == [] {
    } else {
      var before, a := acts[..|acts| - 1], acts[|acts| - 1];
      CallsAreCounted(threads, fibers, tasks, before, x);
      StepCounts(Exec(Init(threads, fibers, tasks), before), a, x);
    }
  }

  lemma StepCounts(s: State, a: Action, x: Item)
    ensures Counted(Step(s, a), x) == Counted(s, x) + (if IsCallFor(s, a, x) then 1 else 0)
  {
    if Source(s, a).Some? { TakingCounts(s, a, x); }
    else if Puts(a) { PuttingCounts(s, a, x); }
    else { OthersCount(s, a, x); }
  }

  lemma TakingCounts(s: State, a: Action, x: Item)
    requires Source(s, a).Some?
    ensures Counted(Step(s, a), x) == Counted(s, x) && !IsCallFor(s, a, x)
  {
  }

  lemma PuttingCounts(s: State, a: Action, x: Item)
    requires Puts(a)
    ensures Counted(Step(s, a), x) == Counted(s, x) + (if IsCallFor(s, a, x) then 1 else 0)
  {
  }

  lemma OthersCount(s: State, a: Action, x: Item)
    requires Source(s, a).None? && !Puts(a)
    ensures Counted(Step(s, a), x) == Counted(s, x) && !IsCallFor(s, a, x)
  {
    if a.EndFlush? || a.EndTask? || a.FinishTask? { TaskStepCounts(s, a, x); }
    else if IsSwitch(a) || a.CleanUp? || a.BootReserve? || a.BootSwitch? || a.Reserve? { SwitchCounts(s, a, x); }
  }

  lemma TaskStepCounts(s: State, a: Action, x: Item)
    requires a.EndFlush? || a.EndTask? || a.FinishTask?
    ensures Counted(Step(s, a), x) == Counted(s, x) && !IsCallFor(s, a, x)
  {
  }

  lemma SwitchCounts(s: State, a: Action, x: Item)
    requires IsSwitch(a) || a.CleanUp? || a.BootReserve? || a.BootSwitch? || a.Reserve?
    ensures Counted(Step(s, a), x) == Counted(s, x) && !IsCallFor(s, a, x)
  {
  }

  // A task that AddTask was called for is in a queue or a hand until it has been started; a fiber that
  // AddReadyFiber was called for is in a queue, list, buffer or hand until it has resumed.
  lemma WhatIsAskedIsKept(threads: nat, fibers: nat, tasks: nat, acts: seq<Action>, x: Item)
    requires threads >= 1 && fibers >= 1
    ensures var s, n := Exec(Init(threads, fibers, tasks), acts), Calls(Init(threads, fibers, tasks), acts, x);
      && Done(s, x) <= n <= Done(s, x) + 1
      && ((exists p :: Holds(s, p, x)) <==> n == Done(s, x) + 1)
  {
    EachItemOnce(threads, fibers, tasks, acts, x);
    CallsAreCounted(threads, fibers, tasks, acts, x);
  }

  // How often a task was started, or a fiber resumed.
  function Done(s: State, x: Item): nat {
    match x
    case Task(i) => if i < |s.tasks| then s.tasks[i].runs else 0
    case ReadyFiber(w) => if w < |s.fibers| then s.fibers[w].resumes else 0
  }

  // ---- Progress ----

  // What the code does next; in a task that may be anything, so one thing it may do.
  function Next(s: State, t: nat): Action
    requires Runs(s, t)
  {
    match Cur(s, t).pc
    case Looping => SkipPinned(t)
    case Searching => GiveUp(t)
    case Checking(_) => Check(t)
    case Flushing(_) => if Content(s.boxes, TaskBuffer(s.threads[t].cur)) == [] then EndFlush(t) else PutBack(t)
    case SearchingLow => FindNothing(t)
    case Resuming(_) => SwitchToReady(t)
    case InTask => if Cur(s, t).job.Some? then EndTask(t) else InitBundle(t, false)
    case TaskEnded => FinishTask(t)
    case Parking => EnterSwitch(t)
    case Leaving(_) => SwitchToFree(t)
    case _ => CleanUp(t)
  }

  // A thread can always go on, unless it looks for a free fiber and there is none.
  lemma NoThreadIsStuck(threads: nat, fibers: nat, tasks: nat, acts: seq<Action>, t: nat)
    requires threads >= 1 && fibers >= 1 && t < |Exec(Init(threads, fibers, tasks), acts).threads|
    ensures CanGoOn(Exec(Init(threads, fibers, tasks), acts), t)
  {
    ExecKeepsInv(threads, fibers, tasks, acts);
    GoesOn(Exec(Init(threads, fibers, tasks), acts), t);
  }

  ghost predicate CanGoOn(s: State, t: nat)
    requires t < |s.threads|
  {
    match s.threads[t].stage
    case Boot => forall r: nat | IsFree(s, r) :: Step(s, BootReserve(t, r)) != s
    case BootGot(_) => Step(s, BootSwitch(t)) != s
    case Live =>
      && Runs(s, t)
      && if Cur(s, t).pc.Reserving? then forall r: nat | IsFree(s, r) :: Step(s, Reserve(t, r)) != s
         else Step(s, Next(s, t)) != s
  }

  lemma GoesOn(s: State, t: nat)
    requires Inv(s) && t < |s.threads|
    ensures CanGoOn(s, t)
  {
    ThreadFacts(s, t);
    match s.threads[t].stage
    case Boot =>
    case BootGot(_) =>
      assert BootSwitchStep(s, t).threads[t] != s.threads[t];
    case Live =>
      CurFacts(s, t);
      LiveGoesOn(s, t);
  }

  lemma LiveGoesOn(s: State, t: nat)
    requires Runs(s, t) && ThreadOk(s.fibers, t, s.threads[t]) && PcOk(s.fibers, s.tasks, s.threads[t].cur, Cur(s, t))
    ensures if Cur(s, t).pc.Reserving? then forall r: nat | IsFree(s, r) :: Step(s, Reserve(t, r)) != s
            else Step(s, Next(s, t)) != s
  {
    var f := s.threads[t].cur;
    match Cur(s, t).pc
    case Reserving =>
      forall r: nat | IsFree(s, r)
        ensures Step(s, Reserve(t, r)) != s
      {
        assert ReserveStep(s, t, r).fibers[f].pc == Leaving(r);
      }
    case Flushing(_) => FlushGoesOn(s, t);
    case Resuming(w) => assert SwitchToReadyStep(s, t).threads[t].cleanups == 0;
    case Leaving(r) => assert SwitchToFreeStep(s, t).threads[t].cleanups == 0;
    case _ => OwnPcGoesOn(s, t);
  }

  lemma OwnPcGoesOn(s: State, t: nat)
    requires Runs(s, t) && ThreadOk(s.fibers, t, s.threads[t]) && PcOk(s.fibers, s.tasks, s.threads[t].cur, Cur(s, t))
    requires var pc := Cur(s, t).pc; !pc.Reserving? && !pc.Flushing? && !pc.Resuming? && !pc.Leaving?
    ensures Step(s, Next(s, t)) != s
  {
    var f := s.threads[t].cur;
    if AtResumePoint(Cur(s, t).pc) {
      assert CleanUpStep(s, t).threads[t].cleanups == s.threads[t].cleanups + 1;
    } else {
      assert Step(s, Next(s, t)).fibers[f].pc != s.fibers[f].pc;
    }
  }

  lemma FlushGoesOn(s: State, t: nat)
    requires Runs(s, t) && Cur(s, t).pc.Flushing? && PcOk(s.fibers, s.tasks, s.threads[t].cur, Cur(s, t))
    ensures Step(s, Next(s, t)) != s
  {
    var f := s.threads[t].cur;
    var c := Content(s.boxes, TaskBuffer(f));
    if c == [] {
      assert EndFlushStep(s, t).fibers[f].pc != Cur(s, t).pc;
    } else {
      assert Content(PutBackStep(s, t).boxes, TaskBuffer(f)) == Without(c, |c| - 1);
    }
  }

  // A pop takes the back of the thread's own queue, and a steal the front of another's, if there is any.
  lemma PopsAndStealsTake(threads: nat, fibers: nat, tasks: nat, acts: seq<Action>, t: nat, v: nat)
    requires threads >= 1 && fibers >= 1 && Runs(Exec(Init(threads, fibers, tasks), acts), t)
    ensures var s := Exec(Init(threads, fibers, tasks), acts);
      && (Cur(s, t).pc.Searching? ==>
            && Pops(s, PopHi(t), HiQ(t), true)
            && (v != t ==> Pops(s, StealHi(t, v), HiQ(v), false)))
      && (Cur(s, t).pc.SearchingLow? ==>
            && Pops(s, PopLow(t), LoQ(t), true)
            && (v != t ==> Pops(s, StealLow(t, v), LoQ(v), false)))
  {
    ExecKeepsInv(threads, fibers, tasks, acts);
    var s := Exec(Init(threads, fibers, tasks), acts);
    if Cur(s, t).pc.Searching? {
      PopTakes(s, PopHi(t), HiQ(t), true);
      if v != t { PopTakes(s, StealHi(t, v), HiQ(v), false); }
    } else if Cur(s, t).pc.SearchingLow? {
      PopTakes(s, PopLow(t), LoQ(t), true);
      if v != t { PopTakes(s, StealLow(t, v), LoQ(v), false); }
    }
  }

  ghost predicate Pops(s: State, a: Action, b: Box, back: bool) {
    var c, c' := Content(s.boxes, b), Content(Step(s, a).boxes, b);
    c != [] ==>
      && c == (if back then c' + [c[|c| - 1]] else [c[0]] + c')
      && HasItem(Step(s, a), a.t, if back then c[|c| - 1] else c[0])
  }

  lemma PopTakes(s: State, a: Action, b: Box, back: bool)
    requires Inv(s) && Runs(s, a.t)
    requires (Cur(s, a.t).pc.Searching? && a == PopHi(a.t) && b == HiQ(a.t) && back)
      || (Cur(s, a.t).pc.Searching? && a.StealHi? && a.v != a.t && b == HiQ(a.v) && !back)
      || (Cur(s, a.t).pc.SearchingLow? && a == PopLow(a.t) && b == LoQ(a.t) && back)
      || (Cur(s, a.t).pc.SearchingLow? && a.StealLow? && a.v != a.t && b == LoQ(a.v) && !back)
    ensures Pops(s, a, b, back)
  {
    var c := Content(s.boxes, b);
    if c != [] {
      var j := if back then |c| - 1 else 0;
      assert Source(s, a) == Some((b, j));
      ItemFits(s, b, j);
      if b.LoQ? { LowIsTask(s, b, j); }
      SearchMoves(s, a);
      TakesItem(s, a, b, j);
      NowHasItem(s, a, b, j);
      WithoutEnds(c);
      assert Content(Step(s, a).boxes, b) == Without(c, j);
    }
  }

  lemma SearchMoves(s: State, a: Action)
    requires Runs(s, a.t) && Source(s, a).Some? && !a.TakePinned?
    requires var (b, j) := Source(s, a).value; 0 <= j < |Content(s.boxes, b)|
    requires if a.PopHi? || a.StealHi? then Cur(s, a.t).pc.Searching? else Cur(s, a.t).pc.SearchingLow?
    requires (a.StealHi? || a.StealLow?) ==> a.v != a.t
    requires a.PopLow? || a.StealLow? ==>
      var (b, j) := Source(s, a).value; Content(s.boxes, b)[j].Task? && Content(s.boxes, b)[j].i < |s.tasks|
    ensures Step(s, a) != s
  {
    var f := s.threads[a.t].cur;
    assert Step(s, a).fibers[f].pc != s.fibers[f].pc;
  }

  // ---- What a search buffers, and the lists of pinned fibers ----

  // One step on the buffer of fiber g: g's thread puts the ready fiber it has just found not switched on
  // top, or takes the top one off and appends it to its own hi-pri queue.
  ghost predicate BufferStep(s: State, a: Action, g: nat, op: D.Op<Item>) {
    var c, c' := Content(s.boxes, TaskBuffer(g)), Content(Step(s, a).boxes, TaskBuffer(g));
    && D.Does(op, c, c')
    && (!op.Nothing? ==> Runs(s, a.t) && s.threads[a.t].cur == g)
    && match op
       case Nothing => true
       case PushBack(x) =>
         Cur(s, a.t).pc == Checking(x) && x.ReadyFiber? && x.w < |s.fibers| && !s.fibers[x.w].flag
       case TakeBack(x) => Content(Step(s, a).boxes, HiQ(a.t)) == Content(s.boxes, HiQ(a.t)) + [x]
       case TakeFront(_) => false
  }

  // Buffers are stacks, so what is put back comes in the opposite order.
  lemma BuffersAreStacks(s: State, a: Action, g: nat)
    ensures exists op :: BufferStep(s, a, g, op)
  {
    var c, c' := Content(s.boxes, TaskBuffer(g)), Content(Step(s, a).boxes, TaskBuffer(g));
    if c' == c {
      assert BufferStep(s, a, g, D.Nothing);
    } else if a.Check? {
      assert BufferStep(s, a, g, D.PushBack(c'[|c'| - 1]));
    } else {
      OnlySearchesBuffer(s, a, g);
      WithoutEnds(c);
      assert BufferStep(s, a, g, D.TakeBack(c[|c| - 1]));
    }
  }

  lemma OnlySearchesBuffer(s: State, a: Action, g: nat)
    requires Content(Step(s, a).boxes, TaskBuffer(g)) != Content(s.boxes, TaskBuffer(g)) && !a.Check?
    ensures a.PutBack? && Runs(s, a.t) && Cur(s, a.t).pc.Flushing? && s.threads[a.t].cur == g
    ensures Content(s.boxes, TaskBuffer(g)) != []
  {
  }

  // A list of pinned fibers only grows at the end, by AddReadyFiber, or loses one fiber whose flag is
  // set, which its own thread goes on to resume.
  lemma PinnedListsKeepOrder(s: State, a: Action, u: nat)
    ensures var c, s' := Content(s.boxes, PinnedQ(u)), Step(s, a);
      var c' := Content(s'.boxes, PinnedQ(u));
      || c' == c
      || (a.AddReady? && c' == c + [ReadyFiber(a.w)])
      || (a.TakePinned? && a.t == u && a.j < |c| && c' == Without(c, a.j)
          && c[a.j].ReadyFiber? && c[a.j].w < |s.fibers| && s.fibers[c[a.j].w].flag
          && Runs(s', u) && Cur(s', u).pc == Resuming(c[a.j].w))
  {
    if a.TakePinned? { TakingPinned(s, a, u); }
    else if a.AddReady? { ReadyingPinned(s, a, u); }
    else { OthersLeavePinned(s, a, u); }
  }

  lemma TakingPinned(s: State, a: Action, u: nat)
    requires a.TakePinned?
    ensures var c, s' := Content(s.boxes, PinnedQ(u)), Step(s, a);
      var c' := Content(s'.boxes, PinnedQ(u));
      || c' == c
      || (a.t == u && a.j < |c| && c' == Without(c, a.j)
          && c[a.j].ReadyFiber? && c[a.j].w < |s.fibers| && s.fibers[c[a.j].w].flag
          && Runs(s', u) && Cur(s', u).pc == Resuming(c[a.j].w))
  {
  }

  lemma ReadyingPinned(s: State, a: Action, u: nat)
    requires a.AddReady?
    ensures var c, c' := Content(s.boxes, PinnedQ(u)), Content(Step(s, a).boxes, PinnedQ(u));
      c' == c || c' == c + [ReadyFiber(a.w)]
  {
  }

  lemma OthersLeavePinned(s: State, a: Action, u: nat)
    requires !a.AddReady? && !a.TakePinned?
    ensures Content(Step(s, a).boxes, PinnedQ(u)) == Content(s.boxes, PinnedQ(u))
  {
  }
}

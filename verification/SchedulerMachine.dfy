/** The scheduler's fiber hand-off and task search, with any number of threads and fibers. A thread's
    step is one step of the fiber it is running. Switching fibers changes which fiber a thread runs;
    what is to become of the fiber it left is recorded in the thread's storage and carried out by the
    next fiber, in CleanUpOldFiber.

    The task queues, the lists of pinned ready fibers and the searches' buffers are sequences. One step
    pushes to or pops from the back of the thread's own queue or steals from the front of another's, as
    one call on the deque does. A search may stop popping or stealing at any point, and may try the
    other threads in any order.

    loc, place, cleanups, waits, resumes, runs and pushes are history. Two steps look at history for
    what the caller promises: a task is pushed once, and AddReadyFiber is called once per wait. */
module SchedulerMachine {
  import opened Options
  import opened WaiterList
  import D = DequeMachine

  // FiberDestination
  datatype Destination = Nowhere | ToPool | ToWaiting

  // ThreadLocalStorage, and how far the thread has started. flag is the fiber whose bundle
  // OldFiberStoredFlag points into.
  datatype Thread = Thread(stage: Stage, cur: nat, oldFiber: Link, dest: Destination, flag: Link, cleanups: nat)

  datatype Stage = Boot | BootGot(r: nat) | Live

  // What the hi-pri queues hold: tasks, and ready fibers behind dummy tasks.
  datatype Item = Task(i: nat) | ReadyFiber(w: nat)

  // HiPriTaskQueue, LoPriTaskQueue and PinnedReadyFibers of a thread, and the taskBuffer of a fiber.
  datatype Box = HiQ(t: nat) | LoQ(t: nat) | PinnedQ(t: nat) | TaskBuffer(g: nat)

  // What a search has found so far.
  datatype Found = Nothing | FoundTask(i: nat) | FoundFiber(w: nat)

  datatype Pc =
    | Fresh                // at the start of FiberStartFunc
    | Looping              // at the top of the worker loop
    | Searching            // in GetNextHiPriTask
    | Checking(x: Item)    // about to ask TaskIsReadyToExecute
    | Flushing(found: Found) // putting back what it buffered
    | SearchingLow         // in GetNextLoPriTask
    | Resuming(w: nat)     // about to switch to the ready fiber w
    | SwitchedOut          // in the worker loop, just after that switch
    | InTask               // running a task, or the main thread's own code
    | TaskEnded            // the task's function has returned
    | Parking              // in Wait or LockSlow, its bundle initialised
    | Reserving            // in SwitchToFreeFiber, looking for a free fiber
    | Leaving(r: nat)      // about to switch to the free fiber r
    | ParkedOut            // in SwitchToFreeFiber, just after that switch

  // Where a fiber's bundle is during one wait.
  datatype BundleLoc = NoBundle | Registered | Boxed(b: Box) | Hand(g: nat) | Taken(g: nat)

  // Where a fiber is: exactly one of these.
  datatype Spot = InPool | Reserved(t: nat) | Current(t: nat) | Pending(t: nat) | Parked

  datatype Fiber = Fiber(
    pc: Pc,
    free: bool,            // m_freeFibers
    flag: bool,            // its bundle's FiberIsSwitched
    pin: Link,             // its bundle's PinnedThreadIndex
    loc: BundleLoc,
    job: Link,             // the task it is running
    place: Spot,
    waits: nat,            // how often its bundle was initialised,
    readied: nat,          // passed to AddReadyFiber,
    resumes: nat)          // and it was switched to for that

  datatype TaskLoc = Unpushed | OnQueue(b: Box) | InHand(g: nat) | Running(g: nat) | Ended(g: nat) | Finished

  // pushes and runs: how often it was put on a queue by AddTask, and started.
  datatype TaskState = TaskState(loc: TaskLoc, pushes: nat, runs: nat)

  datatype State = State(threads: seq<Thread>, fibers: seq<Fiber>, tasks: seq<TaskState>, boxes: map<Box, seq<Item>>)

  // Every action is a step of thread t.
  datatype Action =
    | BootReserve(t: nat, r: nat)
    | BootSwitch(t: nat)
    | CleanUp(t: nat)
    | TakePinned(t: nat, j: nat)
    | SkipPinned(t: nat)
    | PopHi(t: nat)
    | StealHi(t: nat, v: nat)
    | GiveUp(t: nat)
    | Check(t: nat)
    | PutBack(t: nat)
    | EndFlush(t: nat)
    | PopLow(t: nat)
    | StealLow(t: nat, v: nat)
    | FindNothing(t: nat)
    | SwitchToReady(t: nat)
    | EndTask(t: nat)
    | FinishTask(t: nat)
    | PushTask(t: nat, i: nat, high: bool)
    | InitBundle(t: nat, pinned: bool)
    | EnterSwitch(t: nat)
    | Reserve(t: nat, r: nat)
    | SwitchToFree(t: nat)
    | AddReady(t: nat, w: nat)

  const POOLED := Fiber(Fresh, true, false, None, NoBundle, None, InPool, 0, 0, 0)
  const MAIN := Fiber(InTask, false, false, None, NoBundle, None, Current(0), 0, 0, 0)

  // Fiber 0 is bound to the main thread, which is already running its own code.
  function Init(threads: nat, fibers: nat, tasks: nat): State
    requires threads >= 1 && fibers >= 1
  {
    State([Thread(Live, 0, None, Nowhere, None, 1)] + seq(threads - 1, _ => Thread(Boot, 0, None, Nowhere, None, 0)),
          [MAIN] + seq(fibers - 1, _ => POOLED),
          seq(tasks, _ => TaskState(Unpushed, 0, 0)),
          map[])
  }

  // ---- Boxes ----

  function Content(boxes: map<Box, seq<Item>>, b: Box): seq<Item> {
    if b in boxes then boxes[b] else []
  }

  function Without<X>(q: seq<X>, j: nat): seq<X>
    requires j < |q|
  {
    q[..j] + q[j + 1..]
  }

  function TakeOut(s: State, b: Box, j: nat): State
    requires j < |Content(s.boxes, b)|
  {
    s.(boxes := s.boxes[b := Without(Content(s.boxes, b), j)])
  }

  // x is put at the back of b; the history follows.
  function PutIn(s: State, b: Box, x: Item): State {
    Relocate(s, b, x).(boxes := s.boxes[b := Content(s.boxes, b) + [x]])
  }

  function Relocate(s: State, b: Box, x: Item): State {
    match x
    case Task(i) => SetTask(s, i, OnQueue(b))
    case ReadyFiber(w) => SetLoc(s, w, Boxed(b))
  }

  function SetFiber(s: State, f: nat, x: Fiber): State {
    s.(fibers := Set(s.fibers, f, x))
  }

  function SetThread(s: State, t: nat, x: Thread): State {
    s.(threads := Set(s.threads, t, x))
  }

  function SetLoc(s: State, w: nat, loc: BundleLoc): State {
    if w < |s.fibers| then SetFiber(s, w, s.fibers[w].(loc := loc)) else s
  }

  function SetTask(s: State, i: nat, loc: TaskLoc): State {
    if i < |s.tasks| then s.(tasks := s.tasks[i := s.tasks[i].(loc := loc)]) else s
  }

  // Thread t is running fiber cur at pc.
  predicate Runs(s: State, t: nat) {
    t < |s.threads| && s.threads[t].stage.Live? && s.threads[t].cur < |s.fibers|
  }

  function Cur(s: State, t: nat): Fiber
    requires Runs(s, t)
  {
    s.fibers[s.threads[t].cur]
  }

  function CurTo(s: State, t: nat, pc: Pc): State
    requires Runs(s, t)
  {
    SetFiber(s, s.threads[t].cur, Cur(s, t).(pc := pc))
  }

  // ---- Starting a thread ----

  function BootReserveStep(s: State, t: nat, r: nat): State {
    if t < |s.threads| && s.threads[t].stage.Boot? && r < |s.fibers| && s.fibers[r].free
    then SetThread(SetFiber(s, r, s.fibers[r].(free := false, place := Reserved(t))), t,
                   s.threads[t].(stage := BootGot(r)))
    else s
  }

  function BootSwitchStep(s: State, t: nat): State {
    if t < |s.threads| && s.threads[t].stage.BootGot? && s.threads[t].stage.r < |s.fibers|
    then var r := s.threads[t].stage.r;
         SetThread(SetFiber(s, r, s.fibers[r].(place := Current(t))), t,
                   s.threads[t].(stage := Live, cur := r, cleanups := 0))
    else s
  }

  // ---- CleanUpOldFiber ----

  predicate AtResumePoint(pc: Pc) {
    pc.Fresh? || pc.SwitchedOut? || pc.ParkedOut?
  }

  // What becomes of the fiber that a thread left.
  function ReleaseOld(s: State, th: Thread): State {
    match th.dest
    case ToPool =>
      if th.oldFiber.Some? && th.oldFiber.value < |s.fibers|
      then SetFiber(s, th.oldFiber.value, s.fibers[th.oldFiber.value].(free := true, place := InPool)) else s
    case ToWaiting =>
      if th.flag.Some? && th.flag.value < |s.fibers|
      then SetFiber(s, th.flag.value, s.fibers[th.flag.value].(flag := true, place := Parked)) else s
    case Nowhere => s
  }

  // Every point a fiber can be switched to begins with CleanUpOldFiber.
  function CleanUpStep(s: State, t: nat): State {
    if !Runs(s, t) || !AtResumePoint(Cur(s, t).pc) then s else
    var th := s.threads[t];
    var s1 := SetThread(ReleaseOld(s, th), t, th.(dest := Nowhere, oldFiber := None, cleanups := th.cleanups + 1));
    CurTo(s1, t, if Cur(s, t).pc.ParkedOut? then InTask else Looping)
  }

  // ---- The worker loop ----

  // A pinned ready fiber whose flag is set.
  function TakePinnedStep(s: State, t: nat, j: nat): State {
    if !(Runs(s, t) && Cur(s, t).pc.Looping? && j < |Content(s.boxes, PinnedQ(t))|) then s else
    match Content(s.boxes, PinnedQ(t))[j]
    case Task(_) => s
    case ReadyFiber(w) =>
      if w < |s.fibers| && s.fibers[w].flag
      then CurTo(SetLoc(TakeOut(s, PinnedQ(t), j), w, Taken(s.threads[t].cur)), t, Resuming(w))
      else s
  }

  // Thread t has item x off a hi-pri queue.
  function Grab(s: State, t: nat, x: Item): State
    requires Runs(s, t)
  {
    var f := s.threads[t].cur;
    var s1 := match x { case Task(i) => SetTask(s, i, InHand(f)) case ReadyFiber(w) => SetLoc(s, w, Hand(f)) };
    CurTo(s1, t, Checking(x))
  }

  function GrabStep(s: State, t: nat, b: Box, j: int): State {
    if Runs(s, t) && Cur(s, t).pc.Searching? && 0 <= j < |Content(s.boxes, b)|
    then Grab(TakeOut(s, b, j), t, Content(s.boxes, b)[j])
    else s
  }

  // TaskIsReadyToExecute; what is not ready goes to the buffer.
  function CheckStep(s: State, t: nat): State {
    if !(Runs(s, t) && Cur(s, t).pc.Checking?) then s else
    match Cur(s, t).pc.x
    case Task(i) => CurTo(s, t, Flushing(FoundTask(i)))
    case ReadyFiber(w) =>
      if w >= |s.fibers| then s
      else if s.fibers[w].flag then CurTo(s, t, Flushing(FoundFiber(w)))
      else CurTo(PutIn(s, TaskBuffer(s.threads[t].cur), ReadyFiber(w)), t, Searching)
  }

  // taskBuffer->back() is pushed and popped from the buffer.
  function PutBackStep(s: State, t: nat): State {
    if !(Runs(s, t) && Cur(s, t).pc.Flushing?) then s else
    var b := TaskBuffer(s.threads[t].cur);
    var n := |Content(s.boxes, b)|;
    if n == 0 then s else PutIn(TakeOut(s, b, n - 1), HiQ(t), Content(s.boxes, b)[n - 1])
  }

  function StartTask(s: State, t: nat, i: nat): State
    requires Runs(s, t)
  {
    if i >= |s.tasks| then s else
    var f := s.threads[t].cur;
    var s1 := s.(tasks := s.tasks[i := s.tasks[i].(loc := Running(f), runs := s.tasks[i].runs + 1)]);
    SetFiber(s1, f, Cur(s, t).(pc := InTask, job := Some(i)))
  }

  function EndFlushStep(s: State, t: nat): State {
    if !(Runs(s, t) && Cur(s, t).pc.Flushing? && Content(s.boxes, TaskBuffer(s.threads[t].cur)) == []) then s else
    match Cur(s, t).pc.found
    case Nothing => CurTo(s, t, SearchingLow)
    case FoundTask(i) => StartTask(s, t, i)
    case FoundFiber(w) =>
      CurTo(SetLoc(s, w, Taken(s.threads[t].cur)), t, Resuming(w))
  }

  // What a lo-pri queue holds is run at once; a dummy task would do nothing.
  function StartStep(s: State, t: nat, b: Box, j: int): State {
    if !(Runs(s, t) && Cur(s, t).pc.SearchingLow? && 0 <= j < |Content(s.boxes, b)|) then s else
    match Content(s.boxes, b)[j]
    case Task(i) => StartTask(TakeOut(s, b, j), t, i)
    case ReadyFiber(_) => CurTo(TakeOut(s, b, j), t, Looping)
  }

  // The current fiber goes back to the pool; the ready fiber w goes on.
  function SwitchToReadyStep(s: State, t: nat): State {
    if !(Runs(s, t) && Cur(s, t).pc.Resuming? && Cur(s, t).pc.w < |s.fibers|) then s else
    var f, w := s.threads[t].cur, Cur(s, t).pc.w;
    var s1 := SetFiber(s, f, Cur(s, t).(pc := SwitchedOut, place := Pending(t)));
    var s2 := SetFiber(s1, w, s1.fibers[w].(loc := NoBundle, place := Current(t), resumes := s1.fibers[w].resumes + 1));
    SetThread(s2, t, s.threads[t].(oldFiber := Some(f), cur := w, dest := ToPool, cleanups := 0))
  }

  // ---- Tasks ----

  function EndTaskStep(s: State, t: nat): State {
    if Runs(s, t) && Cur(s, t).pc.InTask? && Cur(s, t).job.Some?
    then CurTo(SetTask(s, Cur(s, t).job.value, Ended(s.threads[t].cur)), t, TaskEnded)
    else s
  }

  // WG->Done() has returned, or there was no wait group.
  function FinishTaskStep(s: State, t: nat): State {
    if Runs(s, t) && Cur(s, t).pc.TaskEnded? && Cur(s, t).job.Some?
    then SetFiber(SetTask(s, Cur(s, t).job.value, Finished), s.threads[t].cur, Cur(s, t).(pc := Looping, job := None))
    else s
  }

  function PushTaskStep(s: State, t: nat, i: nat, high: bool): State {
    if Runs(s, t) && Cur(s, t).pc.InTask? && i < |s.tasks| && s.tasks[i].pushes == 0
    then PutIn(s.(tasks := s.tasks[i := s.tasks[i].(pushes := s.tasks[i].pushes + 1)]),
               if high then HiQ(t) else LoQ(t), Task(i))
    else s
  }

  // ---- Waiting ----

  function InitBundleStep(s: State, t: nat, pinned: bool): State {
    if Runs(s, t) && Cur(s, t).pc.InTask?
    then SetFiber(s, s.threads[t].cur, Cur(s, t).(pc := Parking, flag := false, loc := Registered,
                  pin := if pinned then Some(t) else None, waits := Cur(s, t).waits + 1))
    else s
  }

  // GetNextFreeFiberIndex: a compare-exchange on m_freeFibers[r] succeeds.
  function ReserveStep(s: State, t: nat, r: nat): State {
    if Runs(s, t) && Cur(s, t).pc.Reserving? && r < |s.fibers| && s.fibers[r].free
    then CurTo(SetFiber(s, r, s.fibers[r].(free := false, place := Reserved(t))), t, Leaving(r))
    else s
  }

  function SwitchToFreeStep(s: State, t: nat): State {
    if !(Runs(s, t) && Cur(s, t).pc.Leaving? && Cur(s, t).pc.r < |s.fibers|) then s else
    var f, r := s.threads[t].cur, Cur(s, t).pc.r;
    var s1 := SetFiber(s, f, Cur(s, t).(pc := ParkedOut, place := Pending(t)));
    var s2 := SetFiber(s1, r, s1.fibers[r].(place := Current(t)));
    SetThread(s2, t, s.threads[t].(oldFiber := Some(f), cur := r, dest := ToWaiting, flag := Some(f), cleanups := 0))
  }

  // AddReadyFiber, called by the task code (or the Done) of thread t, at most once for each time the
  // bundle was initialised.
  function AddReadyStep(s: State, t: nat, w: nat): State {
    if Runs(s, t) && (Cur(s, t).pc.InTask? || Cur(s, t).pc.TaskEnded?)
       && w < |s.fibers| && s.fibers[w].readied < s.fibers[w].waits
    then var x := s.fibers[w];
         PutIn(SetFiber(s, w, x.(readied := x.readied + 1)),
               if x.pin.Some? then PinnedQ(x.pin.value) else HiQ(t), ReadyFiber(w))
    else s
  }

  // ---- All steps ----

  function Step(s: State, a: Action): State {
    match a
    case BootReserve(t, r) => BootReserveStep(s, t, r)
    case BootSwitch(t) => BootSwitchStep(s, t)
    case CleanUp(t) => CleanUpStep(s, t)
    case TakePinned(t, j) => TakePinnedStep(s, t, j)
    case SkipPinned(t) => if Runs(s, t) && Cur(s, t).pc.Looping? then CurTo(s, t, Searching) else s
    case PopHi(t) => GrabStep(s, t, HiQ(t), |Content(s.boxes, HiQ(t))| - 1)
    case StealHi(t, v) => if v != t then GrabStep(s, t, HiQ(v), 0) else s
    case GiveUp(t) => if Runs(s, t) && Cur(s, t).pc.Searching? then CurTo(s, t, Flushing(Nothing)) else s
    case Check(t) => CheckStep(s, t)
    case PutBack(t) => PutBackStep(s, t)
    case EndFlush(t) => EndFlushStep(s, t)
    case PopLow(t) => StartStep(s, t, LoQ(t), |Content(s.boxes, LoQ(t))| - 1)
    case StealLow(t, v) => if v != t then StartStep(s, t, LoQ(v), 0) else s
    case FindNothing(t) => if Runs(s, t) && Cur(s, t).pc.SearchingLow? then CurTo(s, t, Looping) else s
    case SwitchToReady(t) => SwitchToReadyStep(s, t)
    case EndTask(t) => EndTaskStep(s, t)
    case FinishTask(t) => FinishTaskStep(s, t)
    case PushTask(t, i, high) => PushTaskStep(s, t, i, high)
    case InitBundle(t, pinned) => InitBundleStep(s, t, pinned)
    case EnterSwitch(t) => if Runs(s, t) && Cur(s, t).pc.Parking? then CurTo(s, t, Reserving) else s
    case Reserve(t, r) => ReserveStep(s, t, r)
    case SwitchToFree(t) => SwitchToFreeStep(s, t)
    case AddReady(t, w) => AddReadyStep(s, t, w)
  }

  function Exec(s: State, acts: seq<Action>): State {
    if acts == [] then s else Step(Exec(s, acts[..|acts| - 1]), acts[|acts| - 1])
  }

  // ---- The invariant ----

  // The fiber thread t has reserved and not yet switched to.
  function ReservedBy(threads: seq<Thread>, fibers: seq<Fiber>, t: nat): Link {
    if t >= |threads| then None
    else match threads[t].stage
      case Boot => None
      case BootGot(r) => Some(r)
      case Live =>
        if threads[t].cur < |fibers| && fibers[threads[t].cur].pc.Leaving?
        then Some(fibers[threads[t].cur].pc.r) else None
  }

  predicate Waiting(pc: Pc) {
    pc.Parking? || pc.Reserving? || pc.Leaving?
  }

  predicate InSearch(pc: Pc) {
    pc.Searching? || pc.Checking? || pc.Flushing?
  }

  // The item a searching fiber has taken off a queue and not yet disposed of.
  function Grasp(pc: Pc): Option<Item> {
    match pc
    case Checking(x) => Some(x)
    case Flushing(FoundTask(i)) => Some(Task(i))
    case Flushing(FoundFiber(w)) => Some(ReadyFiber(w))
    case _ => None
  }

  ghost predicate SpotOk(threads: seq<Thread>, fibers: seq<Fiber>, f: nat, x: Fiber) {
    && (x.free <==> x.place.InPool?)
    && match x.place
       case InPool => (x.pc.Fresh? || x.pc.SwitchedOut?) && x.loc == NoBundle
       case Reserved(t) =>
         (x.pc.Fresh? || x.pc.SwitchedOut?) && x.loc == NoBundle && ReservedBy(threads, fibers, t) == Some(f)
       case Current(t) =>
         && t < |threads| && threads[t].stage.Live? && threads[t].cur == f
         && (x.loc == NoBundle <==> !Waiting(x.pc))
       case Pending(t) =>
         && t < |threads| && threads[t].oldFiber == Some(f)
         && match threads[t].dest {
              case Nowhere => false
              case ToPool => x.pc.SwitchedOut? && x.loc == NoBundle
              case ToWaiting => x.pc.ParkedOut? && x.loc != NoBundle && !x.flag && threads[t].flag == Some(f)
            }
       case Parked => x.pc.ParkedOut? && x.loc != NoBundle && x.flag
  }

  ghost predicate BundleOk(fibers: seq<Fiber>, f: nat, x: Fiber) {
    && (Waiting(x.pc) ==> !x.flag)
    && x.waits == x.readied + (if x.loc.Registered? then 1 else 0)
    && x.readied == x.resumes + (if x.loc.NoBundle? || x.loc.Registered? then 0 else 1)
    && match x.loc
       case NoBundle => true
       case Registered => true
       case Boxed(HiQ(_)) => x.pin == None
       case Boxed(LoQ(_)) => false
       case Boxed(PinnedQ(t)) => x.pin == Some(t)
       case Boxed(TaskBuffer(g)) => x.pin == None && g < |fibers| && InSearch(fibers[g].pc)
       case Hand(g) => x.pin == None && g < |fibers| && Grasp(fibers[g].pc) == Some(ReadyFiber(f))
       case Taken(g) =>
         && x.flag && g < |fibers| && fibers[g].pc == Resuming(f)
         && (x.pin.Some? ==> fibers[g].place == Current(x.pin.value))
  }

  ghost predicate PcOk(fibers: seq<Fiber>, tasks: seq<TaskState>, f: nat, x: Fiber) {
    && (!AtResumePoint(x.pc) ==> x.place.Current?)
    && (x.job.Some? ==> (x.pc.InTask? || x.pc.TaskEnded? || Waiting(x.pc) || x.pc.ParkedOut?))
    && (x.job.Some? ==> x.job.value < |tasks|)
    && (x.job.Some? ==> tasks[x.job.value].loc == if x.pc.TaskEnded? then Ended(f) else Running(f))
    && (x.pc.TaskEnded? ==> x.job.Some?)
    && match x.pc
       case Checking(ReadyFiber(w)) => w < |fibers| && fibers[w].loc == Hand(f)
       case Checking(Task(i)) => i < |tasks| && tasks[i].loc == InHand(f)
       case Flushing(FoundFiber(w)) => w < |fibers| && fibers[w].loc == Hand(f) && fibers[w].flag
       case Flushing(FoundTask(i)) => i < |tasks| && tasks[i].loc == InHand(f)
       case Resuming(w) => w < |fibers| && fibers[w].loc == Taken(f)
       case Leaving(r) => x.place.Current? && r < |fibers| && fibers[r].place == Reserved(x.place.t)
       case _ => true
  }

  ghost predicate ThreadOk(fibers: seq<Fiber>, t: nat, th: Thread) {
    && (th.oldFiber.Some? <==> th.dest != Nowhere)
    && (th.oldFiber.Some? ==> th.oldFiber.value < |fibers| && fibers[th.oldFiber.value].place == Pending(t))
    && match th.stage
       case Boot => th.dest == Nowhere
       case BootGot(r) => th.dest == Nowhere && r < |fibers| && fibers[r].place == Reserved(t)
       case Live =>
         && th.cur < |fibers| && fibers[th.cur].place == Current(t)
         && (th.dest != Nowhere ==> AtResumePoint(fibers[th.cur].pc))
         && th.cleanups == if AtResumePoint(fibers[th.cur].pc) then 0 else 1
  }

  ghost predicate TaskOk(fibers: seq<Fiber>, i: nat, k: TaskState) {
    && k.runs == (if k.loc.Running? || k.loc.Ended? || k.loc.Finished? then 1 else 0)
    && k.pushes == (if k.loc.Unpushed? then 0 else 1)
    && match k.loc
       case OnQueue(b) => b.HiQ? || b.LoQ?
       case InHand(g) => g < |fibers| && Grasp(fibers[g].pc) == Some(Task(i))
       case Running(g) => g < |fibers| && fibers[g].job == Some(i) && !fibers[g].pc.TaskEnded?
       case Ended(g) => g < |fibers| && fibers[g].job == Some(i) && fibers[g].pc.TaskEnded?
       case _ => true
  }

  ghost predicate SpotsOk(threads: seq<Thread>, fibers: seq<Fiber>) {
    forall f {:trigger SpotOk(threads, fibers, f, fibers[f])} | 0 <= f < |fibers| ::
      SpotOk(threads, fibers, f, fibers[f])
  }

  ghost predicate BundlesOk(fibers: seq<Fiber>) {
    forall f {:trigger BundleOk(fibers, f, fibers[f])} | 0 <= f < |fibers| :: BundleOk(fibers, f, fibers[f])
  }

  ghost predicate PcsOk(fibers: seq<Fiber>, tasks: seq<TaskState>) {
    forall f {:trigger PcOk(fibers, tasks, f, fibers[f])} | 0 <= f < |fibers| :: PcOk(fibers, tasks, f, fibers[f])
  }

  ghost predicate ThreadsOk(threads: seq<Thread>, fibers: seq<Fiber>) {
    forall t {:trigger ThreadOk(fibers, t, threads[t])} | 0 <= t < |threads| :: ThreadOk(fibers, t, threads[t])
  }

  ghost predicate TasksOk(fibers: seq<Fiber>, tasks: seq<TaskState>) {
    forall i {:trigger TaskOk(fibers, i, tasks[i])} | 0 <= i < |tasks| :: TaskOk(fibers, i, tasks[i])
  }

  ghost predicate Core(s: State) {
    && SpotsOk(s.threads, s.fibers)
    && BundlesOk(s.fibers)
    && PcsOk(s.fibers, s.tasks)
    && ThreadsOk(s.threads, s.fibers)
    && TasksOk(s.fibers, s.tasks)
  }

  // Which box the history puts item x in.
  function BoxOf(s: State, x: Item): Option<Box> {
    match x
    case Task(i) => if i < |s.tasks| && s.tasks[i].loc.OnQueue? then Some(s.tasks[i].loc.b) else None
    case ReadyFiber(w) => if w < |s.fibers| && s.fibers[w].loc.Boxed? then Some(s.fibers[w].loc.b) else None
  }

  ghost predicate AllBelong(s: State) {
    forall b, j {:trigger Content(s.boxes, b)[j]} | 0 <= j < |Content(s.boxes, b)| ::
      BoxOf(s, Content(s.boxes, b)[j]) == Some(b)
  }

  ghost predicate AllPresent(s: State) {
    forall x {:trigger BoxOf(s, x)} | BoxOf(s, x).Some? :: x in Content(s.boxes, BoxOf(s, x).value)
  }

  ghost predicate NoneTwice(s: State) {
    forall b, j, k | 0 <= j < k < |Content(s.boxes, b)| :: Content(s.boxes, b)[j] != Content(s.boxes, b)[k]
  }

  // The boxes hold what the history says, each item once.
  ghost predicate ContentsOk(s: State) {
    AllBelong(s) && AllPresent(s) && NoneTwice(s)
  }

  ghost predicate Inv(s: State) {
    Core(s) && ContentsOk(s)
  }

  lemma FiberFacts(s: State, f: nat)
    requires Core(s) && f < |s.fibers|
    ensures SpotOk(s.threads, s.fibers, f, s.fibers[f])
    ensures BundleOk(s.fibers, f, s.fibers[f])
    ensures PcOk(s.fibers, s.tasks, f, s.fibers[f])
  {
  }

  lemma ThreadFacts(s: State, t: nat)
    requires Core(s) && t < |s.threads|
    ensures ThreadOk(s.fibers, t, s.threads[t])
  {
  }

  lemma TaskFacts(s: State, i: nat)
    requires Core(s) && i < |s.tasks|
    ensures TaskOk(s.fibers, i, s.tasks[i])
  {
  }

  // ---- Steps between switches ----

  // Nothing that places or threads rely on changes.
  ghost predicate SameSpot(x: Fiber, y: Fiber) {
    && y.free == x.free && y.place == x.place
    && AtResumePoint(y.pc) == AtResumePoint(x.pc) && (AtResumePoint(x.pc) ==> y.pc == x.pc)
    && y.pc.Leaving? == x.pc.Leaving? && (x.pc.Leaving? ==> y.pc == x.pc)
    && if x.place.Current? then (y.loc == NoBundle <==> !Waiting(y.pc))
       else (y.loc == NoBundle <==> x.loc == NoBundle) && y.flag == x.flag
  }

  lemma SpotsKeep(threads: seq<Thread>, fibers: seq<Fiber>, fibers': seq<Fiber>)
    requires SpotsOk(threads, fibers) && ThreadsOk(threads, fibers) && |fibers'| == |fibers|
    requires forall f | 0 <= f < |fibers| :: fibers'[f] == fibers[f] || SameSpot(fibers[f], fibers'[f])
    ensures SpotsOk(threads, fibers')
  {
    forall f | 0 <= f < |fibers|
      ensures SpotOk(threads, fibers', f, fibers'[f])
    {
      assert SpotOk(threads, fibers, f, fibers[f]);
      ReservedKeeps(threads, fibers, fibers');
    }
  }

  lemma ReservedKeeps(threads: seq<Thread>, fibers: seq<Fiber>, fibers': seq<Fiber>)
    requires |fibers'| == |fibers|
    requires forall f | 0 <= f < |fibers| :: fibers'[f] == fibers[f] || SameSpot(fibers[f], fibers'[f])
    ensures forall t: nat :: ReservedBy(threads, fibers', t) == ReservedBy(threads, fibers, t)
  {
  }

  lemma ThreadsKeep(threads: seq<Thread>, fibers: seq<Fiber>, fibers': seq<Fiber>)
    requires ThreadsOk(threads, fibers) && |fibers'| == |fibers|
    requires forall f | 0 <= f < |fibers| :: fibers'[f] == fibers[f] || SameSpot(fibers[f], fibers'[f])
    ensures ThreadsOk(threads, fibers')
  {
    forall t | 0 <= t < |threads|
      ensures ThreadOk(fibers', t, threads[t])
    {
      assert ThreadOk(fibers, t, threads[t]);
    }
  }

  // Fiber f0 runs a step of its own that may also move fiber w's bundle (w == f0 if it does not) and
  // task i (i == |tasks| if it does not).
  ghost predicate StepOf(s: State, s': State, f0: nat, w: nat, i: nat) {
    && f0 < |s.fibers| && w < |s.fibers|
    && s'.threads == s.threads && |s'.fibers| == |s.fibers| && |s'.tasks| == |s.tasks|
    && (forall y | 0 <= y < |s.fibers| && y != f0 && y != w :: s'.fibers[y] == s.fibers[y])
    && (forall j | 0 <= j < |s.tasks| && j != i :: s'.tasks[j] == s.tasks[j])
    && (w != f0 ==> s'.fibers[w] == s.fibers[w].(loc := s'.fibers[w].loc, readied := s'.fibers[w].readied))
  }

  ghost predicate BufferEmpty(s: State, f: nat) {
    forall w | 0 <= w < |s.fibers| :: s.fibers[w].loc != Boxed(TaskBuffer(f))
  }

  // What f0 held before the step it still holds, or it was w's bundle, task i, or an empty buffer.
  ghost predicate LetsGo(s: State, s': State, f0: nat, w: nat, i: nat)
    requires StepOf(s, s', f0, w, i)
  {
    var x, y := s.fibers[f0], s'.fibers[f0];
    && (Grasp(y.pc) == Grasp(x.pc) || Grasp(x.pc) == None || Grasp(x.pc) == Some(Task(i))
        || (w != f0 && Grasp(x.pc) == Some(ReadyFiber(w))))
    && (InSearch(x.pc) ==> InSearch(y.pc) || BufferEmpty(s, f0))
    && !x.pc.Resuming?
    && ((y.job == x.job && y.pc.TaskEnded? == x.pc.TaskEnded?) || x.job == None || x.job == Some(i))
    && (w != f0 ==> match s.fibers[w].loc { case Hand(g) => g == f0 case Taken(g) => false case _ => true })
    && (i < |s.tasks| ==> match s.tasks[i].loc {
          case InHand(g) => g == f0 case Running(g) => g == f0 case Ended(g) => g == f0 case _ => true })
  }

  // The fiber's own bundle stays as it is, or nobody else is dealing with it.
  ghost predicate BundleUntouched(s: State, s': State, f0: nat)
    requires f0 < |s.fibers| && f0 < |s'.fibers|
  {
    (s'.fibers[f0].loc == s.fibers[f0].loc && s'.fibers[f0].flag == s.fibers[f0].flag) || s.fibers[f0].loc == NoBundle
  }

  lemma BundlesKeep(s: State, s': State, f0: nat, w: nat, i: nat)
    requires Core(s) && StepOf(s, s', f0, w, i) && LetsGo(s, s', f0, w, i)
    requires s'.fibers[f0].place == s.fibers[f0].place
    requires BundleOk(s'.fibers, f0, s'.fibers[f0]) && BundleOk(s'.fibers, w, s'.fibers[w])
    ensures BundlesOk(s'.fibers)
  {
    forall y | 0 <= y < |s.fibers| && y != f0 && y != w
      ensures BundleOk(s'.fibers, y, s'.fibers[y])
    {
      assert BundleOk(s.fibers, y, s.fibers[y]);
      assert s.fibers[y].loc == Boxed(TaskBuffer(f0)) ==> !BufferEmpty(s, f0);
    }
  }

  lemma PcsKeep(s: State, s': State, f0: nat, w: nat, i: nat)
    requires Core(s) && StepOf(s, s', f0, w, i) && LetsGo(s, s', f0, w, i)
    requires s'.fibers[f0].place == s.fibers[f0].place
    requires PcOk(s'.fibers, s'.tasks, f0, s'.fibers[f0])
    requires BundleUntouched(s, s', f0)
    ensures PcsOk(s'.fibers, s'.tasks)
  {
    forall y | 0 <= y < |s.fibers| && y != f0
      ensures PcOk(s'.fibers, s'.tasks, y, s'.fibers[y])
    {
      FiberFacts(s, y);
      HeldStays(s, s', f0, w, i, y);
      PcKeeps(s.fibers, s.tasks, s'.fibers, s'.tasks, y, s.fibers[y], s'.fibers[y]);
    }
  }

  // What another fiber y holds does not change.
  ghost predicate Held(fibers: seq<Fiber>, tasks: seq<TaskState>, fibers': seq<Fiber>, tasks': seq<TaskState>, y: nat) {
    && |fibers'| == |fibers| && |tasks'| == |tasks|
    && (forall v | 0 <= v < |fibers| && (fibers[v].loc == Hand(y) || fibers[v].loc == Taken(y)) ::
          fibers'[v].loc == fibers[v].loc && fibers'[v].flag == fibers[v].flag)
    && (forall v | 0 <= v < |fibers| :: fibers'[v].place == fibers[v].place)
    && (forall j | 0 <= j < |tasks|
        && (tasks[j].loc == InHand(y) || tasks[j].loc == Running(y) || tasks[j].loc == Ended(y)) ::
          tasks'[j].loc == tasks[j].loc)
  }

  lemma HeldStays(s: State, s': State, f0: nat, w: nat, i: nat, y: nat)
    requires StepOf(s, s', f0, w, i) && LetsGo(s, s', f0, w, i) && BundleUntouched(s, s', f0)
    requires s'.fibers[f0].place == s.fibers[f0].place && y != f0
    ensures Held(s.fibers, s.tasks, s'.fibers, s'.tasks, y)
  {
  }

  lemma PcKeeps(fibers: seq<Fiber>, tasks: seq<TaskState>, fibers': seq<Fiber>, tasks': seq<TaskState>, y: nat,
                x: Fiber, x': Fiber)
    requires Held(fibers, tasks, fibers', tasks', y) && PcOk(fibers, tasks, y, x)
      && x' == x.(loc := x'.loc, readied := x'.readied)
    ensures PcOk(fibers', tasks', y, x')
  {
  }

  lemma TasksKeep(s: State, s': State, f0: nat, w: nat, i: nat)
    requires Core(s) && StepOf(s, s', f0, w, i) && LetsGo(s, s', f0, w, i)
    requires i < |s.tasks| ==> TaskOk(s'.fibers, i, s'.tasks[i])
    ensures TasksOk(s'.fibers, s'.tasks)
  {
    forall j | 0 <= j < |s.tasks| && j != i
      ensures TaskOk(s'.fibers, j, s'.tasks[j])
    {
      assert TaskOk(s.fibers, j, s.tasks[j]);
    }
  }

  lemma OwnStep(s: State, s': State, f0: nat, w: nat, i: nat)
    requires Core(s) && StepOf(s, s', f0, w, i) && LetsGo(s, s', f0, w, i)
    requires s.fibers[f0].place.Current?
    requires SameSpot(s.fibers[f0], s'.fibers[f0]) && SameSpot(s.fibers[w], s'.fibers[w])
    requires BundleOk(s'.fibers, f0, s'.fibers[f0]) && BundleOk(s'.fibers, w, s'.fibers[w])
    requires PcOk(s'.fibers, s'.tasks, f0, s'.fibers[f0])
    requires i < |s.tasks| ==> TaskOk(s'.fibers, i, s'.tasks[i])
    requires BundleUntouched(s, s', f0)
    ensures Core(s')
  {
    SpotsKeep(s.threads, s.fibers, s'.fibers);
    ThreadsKeep(s.threads, s.fibers, s'.fibers);
    BundlesKeep(s, s', f0, w, i);
    PcsKeep(s, s', f0, w, i);
    TasksKeep(s, s', f0, w, i);
  }

  lemma CurFacts(s: State, t: nat)
    requires Core(s) && Runs(s, t)
    ensures var f0 := s.threads[t].cur;
      && SpotOk(s.threads, s.fibers, f0, Cur(s, t)) && BundleOk(s.fibers, f0, Cur(s, t))
      && PcOk(s.fibers, s.tasks, f0, Cur(s, t)) && Cur(s, t).place == Current(t)
  {
    ThreadFacts(s, t);
    FiberFacts(s, s.threads[t].cur);
  }

  // The current fiber only moves on.
  lemma MoveOn(s: State, t: nat, pc: Pc)
    requires Core(s) && Runs(s, t) && !AtResumePoint(Cur(s, t).pc) && !AtResumePoint(pc)
    requires !pc.Leaving? && !Cur(s, t).pc.Leaving? && Waiting(pc) == Waiting(Cur(s, t).pc)
    requires PcOk(s.fibers, s.tasks, s.threads[t].cur, Cur(s, t).(pc := pc))
    requires (Grasp(pc) == Grasp(Cur(s, t).pc) || Grasp(Cur(s, t).pc) == None) && !Cur(s, t).pc.Resuming?
    requires (InSearch(Cur(s, t).pc) ==> InSearch(pc) || BufferEmpty(s, s.threads[t].cur))
    requires pc.TaskEnded? == Cur(s, t).pc.TaskEnded?
    ensures Core(CurTo(s, t, pc))
  {
    CurFacts(s, t);
    var f0 := s.threads[t].cur;
    OwnStep(s, CurTo(s, t, pc), f0, f0, |s.tasks|);
  }

  lemma SearchKeepsCore(s: State, t: nat)
    requires Core(s) && Runs(s, t)
    ensures Cur(s, t).pc.Looping? ==> Core(CurTo(s, t, Searching))
    ensures Cur(s, t).pc.Searching? ==> Core(CurTo(s, t, Flushing(Nothing)))
    ensures Cur(s, t).pc.SearchingLow? ==> Core(CurTo(s, t, Looping))
    ensures Cur(s, t).pc.Parking? ==> Core(CurTo(s, t, Reserving))
  {
    CurFacts(s, t);
    match Cur(s, t).pc {
      case Looping => MoveOn(s, t, Searching);
      case Searching => MoveOn(s, t, Flushing(Nothing));
      case SearchingLow => MoveOn(s, t, Looping);
      case Parking => MoveOn(s, t, Reserving);
      case _ =>
    }
  }

  lemma TakePinnedKeepsCore(s: State, t: nat, j: nat)
    requires Core(s) && Runs(s, t) && Cur(s, t).pc.Looping? && j < |Content(s.boxes, PinnedQ(t))|
    requires BoxOf(s, Content(s.boxes, PinnedQ(t))[j]) == Some(PinnedQ(t))
    ensures Core(TakePinnedStep(s, t, j))
  {
    CurFacts(s, t);
    match Content(s.boxes, PinnedQ(t))[j]
    case Task(_) =>
    case ReadyFiber(w) =>
      FiberFacts(s, w);
      if s.fibers[w].flag { OwnStep(s, TakePinnedStep(s, t, j), s.threads[t].cur, w, |s.tasks|); }
  }

  lemma GrabKeepsCore(s: State, s': State, t: nat, x: Item)
    requires Core(s) && Runs(s, t) && Cur(s, t).pc.Searching? && BoxOf(s, x).Some? && BoxOf(s, x).value.HiQ?
    requires Runs(s', t) && s'.threads == s.threads && s'.fibers == s.fibers && s'.tasks == s.tasks
    ensures Core(Grab(s', t, x))
  {
    CurFacts(s, t);
    var f0 := s.threads[t].cur;
    match x
    case Task(i) =>
      TaskFacts(s, i);
      OwnStep(s, Grab(s', t, x), f0, f0, i);
    case ReadyFiber(w) =>
      FiberFacts(s, w);
      OwnStep(s, Grab(s', t, x), f0, w, |s.tasks|);
  }

  // A ready fiber whose flag is not set yet goes to the buffer.
  lemma BufferKeepsCore(s: State, t: nat, w: nat)
    requires Core(s) && Runs(s, t) && Cur(s, t).pc == Checking(ReadyFiber(w)) && w < |s.fibers| && !s.fibers[w].flag
    ensures Core(CurTo(PutIn(s, TaskBuffer(s.threads[t].cur), ReadyFiber(w)), t, Searching))
  {
    CurFacts(s, t);
    FiberFacts(s, w);
    var f0 := s.threads[t].cur;
    OwnStep(s, CurTo(PutIn(s, TaskBuffer(f0), ReadyFiber(w)), t, Searching), f0, w, |s.tasks|);
  }

  lemma CheckKeepsCore(s: State, t: nat)
    requires Core(s) && Runs(s, t) && Cur(s, t).pc.Checking?
    ensures Core(CheckStep(s, t))
  {
    CurFacts(s, t);
    match Cur(s, t).pc.x
    case Task(i) => MoveOn(s, t, Flushing(FoundTask(i)));
    case ReadyFiber(w) =>
      if s.fibers[w].flag { MoveOn(s, t, Flushing(FoundFiber(w))); } else { BufferKeepsCore(s, t, w); }
  }

  lemma PutBackKeepsCore(s: State, t: nat)
    requires Core(s) && Runs(s, t) && Cur(s, t).pc.Flushing?
    requires var c := Content(s.boxes, TaskBuffer(s.threads[t].cur));
      |c| > 0 && BoxOf(s, c[|c| - 1]) == Some(TaskBuffer(s.threads[t].cur))
    ensures Core(PutBackStep(s, t))
  {
    CurFacts(s, t);
    var f0 := s.threads[t].cur;
    var c := Content(s.boxes, TaskBuffer(f0));
    match c[|c| - 1]
    case Task(i) => TaskFacts(s, i);
    case ReadyFiber(w) =>
      FiberFacts(s, w);
      OwnStep(s, PutBackStep(s, t), f0, w, |s.tasks|);
  }

  lemma StartTaskKeepsCore(s: State, s': State, t: nat, i: nat)
    requires Core(s) && Runs(s, t) && i < |s.tasks|
    requires Cur(s, t).pc == Flushing(FoundTask(i)) || (Cur(s, t).pc.SearchingLow? && s.tasks[i].loc.OnQueue?)
    requires Cur(s, t).pc.Flushing? ==> BufferEmpty(s, s.threads[t].cur)
    requires Runs(s', t) && s'.threads == s.threads && s'.fibers == s.fibers && s'.tasks == s.tasks
    ensures Core(StartTask(s', t, i))
  {
    CurFacts(s, t);
    TaskFacts(s, i);
    var f0 := s.threads[t].cur;
    OwnStep(s, StartTask(s', t, i), f0, f0, i);
  }

  lemma EndFlushKeepsCore(s: State, t: nat)
    requires Core(s) && Runs(s, t) && Cur(s, t).pc.Flushing? && BufferEmpty(s, s.threads[t].cur)
    requires Content(s.boxes, TaskBuffer(s.threads[t].cur)) == []
    ensures Core(EndFlushStep(s, t))
  {
    CurFacts(s, t);
    match Cur(s, t).pc.found
    case Nothing => MoveOn(s, t, SearchingLow);
    case FoundTask(i) => StartTaskKeepsCore(s, s, t, i);
    case FoundFiber(w) =>
      FiberFacts(s, w);
      OwnStep(s, EndFlushStep(s, t), s.threads[t].cur, w, |s.tasks|);
  }

  lemma EndTaskKeepsCore(s: State, t: nat)
    requires Core(s) && Runs(s, t) && Cur(s, t).pc.InTask? && Cur(s, t).job.Some?
    ensures Core(EndTaskStep(s, t))
  {
    CurFacts(s, t);
    var f0, i := s.threads[t].cur, Cur(s, t).job.value;
    TaskFacts(s, i);
    OwnStep(s, EndTaskStep(s, t), f0, f0, i);
  }

  lemma FinishTaskKeepsCore(s: State, t: nat)
    requires Core(s) && Runs(s, t) && Cur(s, t).pc.TaskEnded?
    ensures Core(FinishTaskStep(s, t))
  {
    CurFacts(s, t);
    var f0, i := s.threads[t].cur, Cur(s, t).job.value;
    TaskFacts(s, i);
    OwnStep(s, FinishTaskStep(s, t), f0, f0, i);
  }

  lemma PushTaskKeepsCore(s: State, t: nat, i: nat, high: bool)
    requires Core(s) && Runs(s, t) && Cur(s, t).pc.InTask? && i < |s.tasks| && s.tasks[i].pushes == 0
    ensures Core(PushTaskStep(s, t, i, high))
  {
    CurFacts(s, t);
    TaskFacts(s, i);
    var f0 := s.threads[t].cur;
    OwnStep(s, PushTaskStep(s, t, i, high), f0, f0, i);
  }

  lemma InitBundleKeepsCore(s: State, t: nat, pinned: bool)
    requires Core(s) && Runs(s, t) && Cur(s, t).pc.InTask?
    ensures Core(InitBundleStep(s, t, pinned))
  {
    CurFacts(s, t);
    var f0 := s.threads[t].cur;
    OwnStep(s, InitBundleStep(s, t, pinned), f0, f0, |s.tasks|);
  }

  lemma AddReadyKeepsCore(s: State, t: nat, w: nat)
    requires Core(s) && Runs(s, t) && (Cur(s, t).pc.InTask? || Cur(s, t).pc.TaskEnded?)
    requires w < |s.fibers| && s.fibers[w].readied < s.fibers[w].waits
    ensures Core(AddReadyStep(s, t, w))
  {
    CurFacts(s, t);
    FiberFacts(s, w);
    OwnStep(s, AddReadyStep(s, t, w), s.threads[t].cur, w, |s.tasks|);
  }

  // ---- Switches and what surrounds them ----

  // A step of thread t that changes only that thread, the fiber a, and the fiber b.
  ghost predicate HandoffOf(s: State, s': State, t: nat, a: nat, b: nat) {
    && t < |s.threads| && a < |s.fibers| && b < |s.fibers|
    && |s'.threads| == |s.threads| && |s'.fibers| == |s.fibers| && s'.tasks == s.tasks
    && (forall u | 0 <= u < |s.threads| && u != t :: s'.threads[u] == s.threads[u])
    && (forall y | 0 <= y < |s.fibers| && y != a && y != b :: s'.fibers[y] == s.fibers[y])
    && HandedOff(s.fibers[a], s'.fibers[a], t, a, b)
    && HandedOff(s.fibers[b], s'.fibers[b], t, a, b)
  }

  // x, which becomes y, is not searching, is no other thread's, and keeps its task; its bundle stays
  // where it is or was fiber a's to resume.
  ghost predicate HandedOff(x: Fiber, y: Fiber, t: nat, a: nat, b: nat) {
    && y.job == x.job && !x.pc.TaskEnded? && !y.pc.TaskEnded?
    && Grasp(x.pc) == None && !InSearch(x.pc)
    && (x.pc.Resuming? ==> x.pc.w == b)
    && ((y.loc == x.loc && (x.flag ==> y.flag)) || x.loc == Taken(a))
    && (match x.place { case Current(u) => u == t case Reserved(u) => u == t case _ => true })
  }

  // Fibers other than a and b that thread t had anything to do with are still what it says they are.
  ghost predicate ThreadKeeps(s: State, s': State, t: nat, a: nat, b: nat)
    requires HandoffOf(s, s', t, a, b)
  {
    forall y | 0 <= y < |s.fibers| && y != a && y != b ::
      match s.fibers[y].place
      case Reserved(u) => u == t ==> ReservedBy(s'.threads, s'.fibers, t) == Some(y)
      case Current(u) => u == t ==> s'.threads[t].stage.Live? && s'.threads[t].cur == y
      case Pending(u) => u == t ==> s'.threads[t] == s.threads[t].(stage := s'.threads[t].stage)
      case _ => true
  }

  lemma HandoffSpots(s: State, s': State, t: nat, a: nat, b: nat)
    requires Core(s) && HandoffOf(s, s', t, a, b) && ThreadKeeps(s, s', t, a, b)
    requires SpotOk(s'.threads, s'.fibers, a, s'.fibers[a]) && SpotOk(s'.threads, s'.fibers, b, s'.fibers[b])
    ensures SpotsOk(s'.threads, s'.fibers)
  {
    forall y | 0 <= y < |s.fibers| && y != a && y != b
      ensures SpotOk(s'.threads, s'.fibers, y, s'.fibers[y])
    {
      FiberFacts(s, y);
      if s.fibers[y].place.Reserved? && s.fibers[y].place.t != t { OtherReserved(s, s', t, a, b, s.fibers[y].place.t); }
    }
  }

  lemma OtherReserved(s: State, s': State, t: nat, a: nat, b: nat, u: nat)
    requires Core(s) && HandoffOf(s, s', t, a, b) && u != t
    ensures ReservedBy(s'.threads, s'.fibers, u) == ReservedBy(s.threads, s.fibers, u)
  {
    if u < |s.threads| { ThreadFacts(s, u); }
  }

  lemma HandoffThreads(s: State, s': State, t: nat, a: nat, b: nat)
    requires Core(s) && HandoffOf(s, s', t, a, b)
    requires ThreadOk(s'.fibers, t, s'.threads[t])
    requires (forall u :: s.fibers[a].place == Pending(u) ==> u == t)
      && (forall u :: s.fibers[b].place == Pending(u) ==> u == t)
    ensures ThreadsOk(s'.threads, s'.fibers)
  {
    forall u | 0 <= u < |s.threads| && u != t
      ensures ThreadOk(s'.fibers, u, s'.threads[u])
    {
      ThreadFacts(s, u);
    }
  }

  lemma HandoffBundles(s: State, s': State, t: nat, a: nat, b: nat)
    requires Core(s) && HandoffOf(s, s', t, a, b)
    requires BundleOk(s'.fibers, a, s'.fibers[a]) && BundleOk(s'.fibers, b, s'.fibers[b])
    ensures BundlesOk(s'.fibers)
  {
    forall y | 0 <= y < |s.fibers| && y != a && y != b
      ensures BundleOk(s'.fibers, y, s'.fibers[y])
    {
      FiberFacts(s, y);
    }
  }

  lemma HandoffPcs(s: State, s': State, t: nat, a: nat, b: nat)
    requires Core(s) && HandoffOf(s, s', t, a, b)
    requires s.threads[t].stage.Live? ==> a == s.threads[t].cur
    requires PcOk(s'.fibers, s'.tasks, a, s'.fibers[a]) && PcOk(s'.fibers, s'.tasks, b, s'.fibers[b])
    ensures PcsOk(s'.fibers, s'.tasks)
  {
    forall y | 0 <= y < |s.fibers| && y != a && y != b
      ensures PcOk(s'.fibers, s'.tasks, y, s'.fibers[y])
    {
      FiberFacts(s, y);
      assert s.fibers[y].place != Current(t);
    }
  }

  lemma HandoffTasks(s: State, s': State, t: nat, a: nat, b: nat)
    requires Core(s) && HandoffOf(s, s', t, a, b)
    ensures TasksOk(s'.fibers, s'.tasks)
  {
    forall i | 0 <= i < |s.tasks|
      ensures TaskOk(s'.fibers, i, s'.tasks[i])
    {
      TaskFacts(s, i);
    }
  }

  lemma Handoff(s: State, s': State, t: nat, a: nat, b: nat)
    requires Core(s) && HandoffOf(s, s', t, a, b) && ThreadKeeps(s, s', t, a, b)
    requires s.threads[t].stage.Live? ==> a == s.threads[t].cur
    requires (forall u :: s.fibers[a].place == Pending(u) ==> u == t)
      && (forall u :: s.fibers[b].place == Pending(u) ==> u == t)
    requires SpotOk(s'.threads, s'.fibers, a, s'.fibers[a]) && SpotOk(s'.threads, s'.fibers, b, s'.fibers[b])
    requires BundleOk(s'.fibers, a, s'.fibers[a]) && BundleOk(s'.fibers, b, s'.fibers[b])
    requires PcOk(s'.fibers, s'.tasks, a, s'.fibers[a]) && PcOk(s'.fibers, s'.tasks, b, s'.fibers[b])
    requires ThreadOk(s'.fibers, t, s'.threads[t])
    ensures Core(s')
  {
    HandoffSpots(s, s', t, a, b);
    HandoffThreads(s, s', t, a, b);
    HandoffBundles(s, s', t, a, b);
    HandoffPcs(s, s', t, a, b);
    HandoffTasks(s, s', t, a, b);
  }

  // While a fiber is past its resume point, its thread has nobody left to clean up after.
  lemma NobodyElse(s: State, t: nat)
    requires Core(s) && t < |s.threads|
    ensures Runs(s, t) ==> forall y | 0 <= y < |s.fibers| && y != s.threads[t].cur :: s.fibers[y].place != Current(t)
    ensures s.threads[t].dest == Nowhere ==> forall y | 0 <= y < |s.fibers| :: s.fibers[y].place != Pending(t)
    ensures forall y | 0 <= y < |s.fibers| && s.fibers[y].place == Pending(t) :: s.threads[t].oldFiber == Some(y)
    ensures forall y | 0 <= y < |s.fibers| && s.fibers[y].place == Reserved(t) ::
      ReservedBy(s.threads, s.fibers, t) == Some(y)
    ensures !s.threads[t].stage.Live? ==> forall y | 0 <= y < |s.fibers| :: s.fibers[y].place != Current(t)
  {
    ThreadFacts(s, t);
    forall y | 0 <= y < |s.fibers|
      ensures s.fibers[y].place == Current(t) ==> s.threads[t].stage.Live? && s.threads[t].cur == y
      ensures s.fibers[y].place == Pending(t) ==> s.threads[t].oldFiber == Some(y) && s.threads[t].dest != Nowhere
      ensures s.fibers[y].place == Reserved(t) ==> ReservedBy(s.threads, s.fibers, t) == Some(y)
    {
      FiberFacts(s, y);
    }
  }

  lemma SwitchToReadyKeepsCore(s: State, t: nat)
    requires Core(s) && Runs(s, t) && Cur(s, t).pc.Resuming?
    ensures Core(SwitchToReadyStep(s, t))
  {
    CurFacts(s, t);
    ThreadFacts(s, t);
    FiberFacts(s, Cur(s, t).pc.w);
    NobodyElse(s, t);
    Handoff(s, SwitchToReadyStep(s, t), t, s.threads[t].cur, Cur(s, t).pc.w);
  }

  lemma SwitchToFreeKeepsCore(s: State, t: nat)
    requires Core(s) && Runs(s, t) && Cur(s, t).pc.Leaving?
    ensures Core(SwitchToFreeStep(s, t))
  {
    CurFacts(s, t);
    ThreadFacts(s, t);
    FiberFacts(s, Cur(s, t).pc.r);
    NobodyElse(s, t);
    Handoff(s, SwitchToFreeStep(s, t), t, s.threads[t].cur, Cur(s, t).pc.r);
  }

  function Settle(x: Fiber, dest: Destination): Fiber {
    if dest.ToPool? then x.(free := true, place := InPool) else x.(flag := true, place := Parked)
  }

  lemma CleanUpShape(s: State, t: nat)
    requires Runs(s, t) && AtResumePoint(Cur(s, t).pc) && ThreadOk(s.fibers, t, s.threads[t])
    requires s.threads[t].dest.ToWaiting? ==> s.threads[t].flag == s.threads[t].oldFiber
    ensures var f, th, s' := s.threads[t].cur, s.threads[t], CleanUpStep(s, t);
      && |s'.fibers| == |s.fibers| && s'.tasks == s.tasks
      && s'.threads == s.threads[t := th.(dest := Nowhere, oldFiber := None, cleanups := 1)]
      && s'.fibers[f] == Cur(s, t).(pc := if Cur(s, t).pc.ParkedOut? then InTask else Looping)
      && (forall y | 0 <= y < |s.fibers| && y != f && th.oldFiber != Some(y) :: s'.fibers[y] == s.fibers[y])
      && (th.oldFiber.Some? ==> th.oldFiber.value != f)
      && (th.oldFiber.Some? ==> s'.fibers[th.oldFiber.value] == Settle(s.fibers[th.oldFiber.value], th.dest))
  {
  }

  // What the two fibers and the thread look like after a cleanup, given only what it relied on.
  lemma CleanUpFits(s: State, s': State, t: nat, f: nat, b: nat)
    requires Runs(s, t) && AtResumePoint(Cur(s, t).pc) && f == s.threads[t].cur && b < |s.fibers|
    requires s.threads[t].oldFiber == (if b == f then None else Some(b))
    requires SpotOk(s.threads, s.fibers, f, Cur(s, t)) && SpotOk(s.threads, s.fibers, b, s.fibers[b])
    requires BundleOk(s.fibers, f, Cur(s, t)) && BundleOk(s.fibers, b, s.fibers[b])
    requires PcOk(s.fibers, s.tasks, f, Cur(s, t)) && PcOk(s.fibers, s.tasks, b, s.fibers[b])
    requires ThreadOk(s.fibers, t, s.threads[t])
    requires |s'.fibers| == |s.fibers| && s'.tasks == s.tasks
    requires s'.threads == s.threads[t := s.threads[t].(dest := Nowhere, oldFiber := None, cleanups := 1)]
    requires s'.fibers[f] == Cur(s, t).(pc := if Cur(s, t).pc.ParkedOut? then InTask else Looping)
    requires forall y | 0 <= y < |s.fibers| && y != f && y != b :: s'.fibers[y] == s.fibers[y]
    requires b != f ==> s'.fibers[b] == Settle(s.fibers[b], s.threads[t].dest)
    ensures HandoffOf(s, s', t, f, b)
    ensures SpotOk(s'.threads, s'.fibers, f, s'.fibers[f]) && SpotOk(s'.threads, s'.fibers, b, s'.fibers[b])
    ensures BundleOk(s'.fibers, f, s'.fibers[f]) && BundleOk(s'.fibers, b, s'.fibers[b])
    ensures PcOk(s'.fibers, s'.tasks, f, s'.fibers[f]) && PcOk(s'.fibers, s'.tasks, b, s'.fibers[b])
    ensures ThreadOk(s'.fibers, t, s'.threads[t])
  {
  }

  lemma CleanUpKeepsCore(s: State, t: nat)
    requires Core(s) && Runs(s, t) && AtResumePoint(Cur(s, t).pc)
    ensures Core(CleanUpStep(s, t))
  {
    CurFacts(s, t);
    ThreadFacts(s, t);
    NobodyElse(s, t);
    var f, th := s.threads[t].cur, s.threads[t];
    var b := if th.oldFiber.Some? then th.oldFiber.value else f;
    FiberFacts(s, b);
    CleanUpShape(s, t);
    CleanUpFits(s, CleanUpStep(s, t), t, f, b);
    Handoff(s, CleanUpStep(s, t), t, f, b);
  }

  lemma BootReserveKeepsCore(s: State, t: nat, r: nat)
    requires Core(s) && t < |s.threads| && s.threads[t].stage.Boot? && r < |s.fibers| && s.fibers[r].free
    ensures Core(BootReserveStep(s, t, r))
  {
    ThreadFacts(s, t);
    FiberFacts(s, r);
    NobodyElse(s, t);
    Handoff(s, BootReserveStep(s, t, r), t, r, r);
  }

  lemma BootSwitchKeepsCore(s: State, t: nat)
    requires Core(s) && t < |s.threads| && s.threads[t].stage.BootGot?
    ensures Core(BootSwitchStep(s, t))
  {
    var r := s.threads[t].stage.r;
    ThreadFacts(s, t);
    FiberFacts(s, r);
    NobodyElse(s, t);
    Handoff(s, BootSwitchStep(s, t), t, r, r);
  }

  lemma ReserveKeepsCore(s: State, t: nat, r: nat)
    requires Core(s) && Runs(s, t) && Cur(s, t).pc.Reserving? && r < |s.fibers| && s.fibers[r].free
    ensures Core(ReserveStep(s, t, r))
  {
    CurFacts(s, t);
    FiberFacts(s, r);
    ThreadFacts(s, t);
    NobodyElse(s, t);
    Handoff(s, ReserveStep(s, t, r), t, s.threads[t].cur, r);
  }

  predicate IsSwitch(a: Action) {
    a.SwitchToReady? || a.SwitchToFree?
  }

  // ---- What the boxes hold ----

  // The history of no other item changes.
  ghost predicate Elsewhere(s: State, s': State, x: Item) {
    forall y: Item | y != x :: BoxOf(s', y) == BoxOf(s, y)
  }

  lemma ContentsStay(s: State, s': State)
    requires ContentsOk(s) && s'.boxes == s.boxes && forall y: Item :: BoxOf(s', y) == BoxOf(s, y)
    ensures ContentsOk(s')
  {
  }

  // Taking out the item at position j leaves every other item where it was.
  lemma WithoutKeeps<X>(q: seq<X>, j: nat)
    requires j < |q|
    ensures |Without(q, j)| == |q| - 1
    ensures forall k | 0 <= k < |q| - 1 :: Without(q, j)[k] == q[if k < j then k else k + 1]
    ensures forall y | y in q && y != q[j] :: y in Without(q, j)
  {
    forall y | y in q && y != q[j]
      ensures y in Without(q, j)
    {
      var k :| 0 <= k < |q| && q[k] == y;
      assert Without(q, j)[if k < j then k else k - 1] == y;
    }
  }

  lemma ContentsTake(s: State, s': State, b: Box, j: nat)
    requires ContentsOk(s) && j < |Content(s.boxes, b)| && s'.boxes == TakeOut(s, b, j).boxes
    requires BoxOf(s', Content(s.boxes, b)[j]) == None && Elsewhere(s, s', Content(s.boxes, b)[j])
    ensures ContentsOk(s')
  {
    WithoutKeeps(Content(s.boxes, b), j);
    assert forall c | c != b :: Content(s'.boxes, c) == Content(s.boxes, c);
    assert Content(s'.boxes, b) == Without(Content(s.boxes, b), j);
  }

  lemma ContentsPut(s: State, s': State, b: Box, x: Item)
    requires ContentsOk(s) && s'.boxes == PutIn(s, b, x).boxes
    requires BoxOf(s, x) == None && BoxOf(s', x) == Some(b) && Elsewhere(s, s', x)
    ensures ContentsOk(s')
  {
    assert forall c | c != b :: Content(s'.boxes, c) == Content(s.boxes, c);
    assert Content(s'.boxes, b) == Content(s.boxes, b) + [x];
  }

  lemma ItemFits(s: State, b: Box, j: nat)
    requires ContentsOk(s) && j < |Content(s.boxes, b)|
    ensures BoxOf(s, Content(s.boxes, b)[j]) == Some(b)
  {
  }

  lemma EmptyBuffer(s: State, f: nat)
    requires ContentsOk(s) && Content(s.boxes, TaskBuffer(f)) == []
    ensures BufferEmpty(s, f)
  {
    forall w | 0 <= w < |s.fibers|
      ensures s.fibers[w].loc != Boxed(TaskBuffer(f))
    {
      assert BoxOf(s, ReadyFiber(w)) != Some(TaskBuffer(f));
    }
  }

  // ---- Every step keeps the boxes as the history says ----

  // The box and position that action a takes an item from, if it takes one.
  function Source(s: State, a: Action): Option<(Box, int)> {
    match a
    case TakePinned(t, j) => Some((PinnedQ(t), j))
    case PopHi(t) => Some((HiQ(t), |Content(s.boxes, HiQ(t))| - 1))
    case StealHi(t, v) => Some((HiQ(v), 0))
    case PopLow(t) => Some((LoQ(t), |Content(s.boxes, LoQ(t))| - 1))
    case StealLow(t, v) => Some((LoQ(v), 0))
    case _ => None
  }

  // The item that action a moves out of a box, if any.
  function Handled(s: State, a: Action): Option<Item> {
    match a
    case PutBack(t) =>
      if !Runs(s, t) || Content(s.boxes, TaskBuffer(s.threads[t].cur)) == [] then None
      else Some(Content(s.boxes, TaskBuffer(s.threads[t].cur))[|Content(s.boxes, TaskBuffer(s.threads[t].cur))| - 1])
    case _ =>
      match Source(s, a) {
        case None => None
        case Some((b, j)) => if 0 <= j < |Content(s.boxes, b)| then Some(Content(s.boxes, b)[j]) else None
      }
  }

  lemma HandledIsBoxed(s: State, a: Action)
    requires ContentsOk(s) && Handled(s, a).Some?
    ensures BoxOf(s, Handled(s, a).value).Some?
  {
  }

  // The actions that may put an item into a box.
  predicate Puts(a: Action) {
    a.PushTask? || a.AddReady? || a.Check? || a.PutBack?
  }

  // Lo-pri queues hold tasks only.
  lemma LowIsTask(s: State, b: Box, j: nat)
    requires Inv(s) && j < |Content(s.boxes, b)| && b.LoQ?
    ensures Content(s.boxes, b)[j].Task?
  {
    ItemFits(s, b, j);
    if Content(s.boxes, b)[j].ReadyFiber? { FiberFacts(s, Content(s.boxes, b)[j].w); }
  }

  lemma TakesContents(s: State, a: Action)
    requires Inv(s) && Step(s, a) != s && Source(s, a).Some?
    ensures ContentsOk(Step(s, a))
  {
    var (b, j) := Source(s, a).value;
    if 0 <= j < |Content(s.boxes, b)| {
      ItemFits(s, b, j);
      if b.LoQ? { LowIsTask(s, b, j); }
    }
    TakesItem(s, a, b, j);
    ContentsTake(s, Step(s, a), b, j);
  }

  lemma TakesItem(s: State, a: Action, b: Box, j: int)
    requires Step(s, a) != s && Source(s, a) == Some((b, j))
    requires 0 <= j < |Content(s.boxes, b)| ==>
      BoxOf(s, Content(s.boxes, b)[j]) == Some(b) && (b.LoQ? ==> Content(s.boxes, b)[j].Task?)
    ensures 0 <= j < |Content(s.boxes, b)| && Step(s, a).boxes == TakeOut(s, b, j).boxes
    ensures BoxOf(Step(s, a), Content(s.boxes, b)[j]) == None && Elsewhere(s, Step(s, a), Content(s.boxes, b)[j])
  {
  }

  lemma PutFits(s: State, b: Box, x: Item)
    requires match x case Task(i) => i < |s.tasks| case ReadyFiber(w) => w < |s.fibers|
    ensures BoxOf(PutIn(s, b, x), x) == Some(b) && Elsewhere(s, PutIn(s, b, x), x)
  {
  }

  lemma PushContents(s: State, a: Action)
    requires Inv(s) && Step(s, a) != s && (a.PushTask? || a.AddReady?)
    ensures ContentsOk(Step(s, a))
  {
    match a
    case PushTask(t, i, high) =>
      TaskFacts(s, i);
      var s1 := s.(tasks := s.tasks[i := s.tasks[i].(pushes := s.tasks[i].pushes + 1)]);
      ContentsStay(s, s1);
      PutFits(s1, if high then HiQ(t) else LoQ(t), Task(i));
      ContentsPut(s1, Step(s, a), if high then HiQ(t) else LoQ(t), Task(i));
    case AddReady(t, w) =>
      FiberFacts(s, w);
      var x := s.fibers[w];
      var s1, b := SetFiber(s, w, x.(readied := x.readied + 1)), if x.pin.Some? then PinnedQ(x.pin.value) else HiQ(t);
      ContentsStay(s, s1);
      PutFits(s1, b, ReadyFiber(w));
      ContentsPut(s1, Step(s, a), b, ReadyFiber(w));
  }

  lemma CheckContents(s: State, t: nat)
    requires Inv(s) && Runs(s, t) && Cur(s, t).pc.Checking?
    ensures ContentsOk(CheckStep(s, t))
  {
    CurFacts(s, t);
    var x := Cur(s, t).pc.x;
    if x.ReadyFiber? && !s.fibers[x.w].flag {
      var b := TaskBuffer(s.threads[t].cur);
      PutFits(s, b, x);
      ContentsPut(s, PutIn(s, b, x), b, x);
      ContentsStay(PutIn(s, b, x), CheckStep(s, t));
    } else {
      ContentsStay(s, CheckStep(s, t));
    }
  }

  // The item is in nobody's box for a moment.
  lemma PutBackContents(s: State, t: nat)
    requires Inv(s) && Runs(s, t) && Cur(s, t).pc.Flushing?
    ensures ContentsOk(PutBackStep(s, t))
  {
    var b := TaskBuffer(s.threads[t].cur);
    var n := |Content(s.boxes, b)|;
    if n > 0 {
      var x := Content(s.boxes, b)[n - 1];
      ItemFits(s, b, n - 1);
      var s1 := TakeOut(s, b, n - 1);
      var s2 := match x case Task(i) => SetTask(s1, i, Finished) case ReadyFiber(w) => SetLoc(s1, w, NoBundle);
      assert BoxOf(s2, x) == None && Elsewhere(s, s2, x);
      ContentsTake(s, s2, b, n - 1);
      PutFits(s1, HiQ(t), x);
      ContentsPut(s2, PutBackStep(s, t), HiQ(t), x);
    }
  }

  lemma StayContents(s: State, a: Action)
    requires Inv(s) && Step(s, a) != s && a.t < |s.threads|
    requires Source(s, a).None? && !Puts(a)
    ensures ContentsOk(Step(s, a))
  {
    if Runs(s, a.t) {
      CurFacts(s, a.t);
      StaysInBox(s, a);
    } else {
      StartStaysInBox(s, a);
    }
    ContentsStay(s, Step(s, a));
  }

  // What a fiber resumes, runs or ends was in no box, and stays out.
  lemma StaysInBox(s: State, a: Action)
    requires Runs(s, a.t) && Source(s, a).None? && !Puts(a)
    requires PcOk(s.fibers, s.tasks, s.threads[a.t].cur, Cur(s, a.t))
      && (Cur(s, a.t).pc.InTask? ==> !Cur(s, a.t).loc.Boxed?)
    ensures Step(s, a).boxes == s.boxes
    ensures forall y: Item :: BoxOf(Step(s, a), y) == BoxOf(s, y)
  {
    if a.EndFlush? || a.EndTask? || a.FinishTask? { TaskStaysInBox(s, a); }
    else if IsSwitch(a) || a.CleanUp? { SwitchStaysInBox(s, a); }
    else { FiberStaysInBox(s, a); }
  }

  lemma TaskStaysInBox(s: State, a: Action)
    requires Runs(s, a.t) && (a.EndFlush? || a.EndTask? || a.FinishTask?)
    requires PcOk(s.fibers, s.tasks, s.threads[a.t].cur, Cur(s, a.t))
    ensures Step(s, a).boxes == s.boxes
    ensures forall y: Item :: BoxOf(Step(s, a), y) == BoxOf(s, y)
  {
  }

  lemma SwitchStaysInBox(s: State, a: Action)
    requires Runs(s, a.t) && (IsSwitch(a) || a.CleanUp?)
    requires PcOk(s.fibers, s.tasks, s.threads[a.t].cur, Cur(s, a.t))
    ensures Step(s, a).boxes == s.boxes
    ensures forall y: Item :: BoxOf(Step(s, a), y) == BoxOf(s, y)
  {
  }

  lemma FiberStaysInBox(s: State, a: Action)
    requires Runs(s, a.t) && Source(s, a).None? && !Puts(a)
    requires !a.EndFlush? && !a.EndTask? && !a.FinishTask? && !IsSwitch(a) && !a.CleanUp?
    requires PcOk(s.fibers, s.tasks, s.threads[a.t].cur, Cur(s, a.t))
      && (Cur(s, a.t).pc.InTask? ==> !Cur(s, a.t).loc.Boxed?)
    ensures Step(s, a).boxes == s.boxes
    ensures forall y: Item :: BoxOf(Step(s, a), y) == BoxOf(s, y)
  {
  }

  lemma StartStaysInBox(s: State, a: Action)
    requires a.t < |s.threads| && !Runs(s, a.t) && Source(s, a).None?
    ensures Step(s, a).boxes == s.boxes
    ensures forall y: Item :: BoxOf(Step(s, a), y) == BoxOf(s, y)
  {
  }

  lemma StepKeepsContents(s: State, a: Action)
    requires Inv(s) && Step(s, a) != s
    ensures ContentsOk(Step(s, a))
  {
    if Source(s, a).Some? { TakesContents(s, a); }
    else if a.PushTask? || a.AddReady? { PushContents(s, a); }
    else if a.Check? { CheckContents(s, a.t); }
    else if a.PutBack? { PutBackContents(s, a.t); }
    else { StayContents(s, a); }
  }

  // ---- Every step keeps the invariant ----

  lemma SearchStepKeepsCore(s: State, a: Action)
    requires Inv(s) && Step(s, a) != s
    requires a.SkipPinned? || a.PopHi? || a.StealHi? || a.GiveUp? || a.Check? || a.PutBack? || a.EndFlush?
      || a.FindNothing?
    ensures Core(Step(s, a))
  {
    match a
    case PopHi(t) => GrabStepKeepsCore(s, t, HiQ(t), |Content(s.boxes, HiQ(t))| - 1);
    case StealHi(t, v) => GrabStepKeepsCore(s, t, HiQ(v), 0);
    case Check(t) => CheckKeepsCore(s, t);
    case PutBack(t) =>
      ItemFits(s, TaskBuffer(s.threads[t].cur), |Content(s.boxes, TaskBuffer(s.threads[t].cur))| - 1);
      PutBackKeepsCore(s, t);
    case EndFlush(t) =>
      EmptyBuffer(s, s.threads[t].cur);
      EndFlushKeepsCore(s, t);
    case _ => SearchKeepsCore(s, a.t);
  }

  lemma GrabStepKeepsCore(s: State, t: nat, b: Box, j: nat)
    requires Inv(s) && Runs(s, t) && Cur(s, t).pc.Searching? && b.HiQ? && j < |Content(s.boxes, b)|
    ensures Core(GrabStep(s, t, b, j))
  {
    ItemFits(s, b, j);
    GrabKeepsCore(s, TakeOut(s, b, j), t, Content(s.boxes, b)[j]);
  }

  lemma StartStepKeepsCore(s: State, t: nat, b: Box, j: nat)
    requires Inv(s) && Runs(s, t) && Cur(s, t).pc.SearchingLow? && b.LoQ? && j < |Content(s.boxes, b)|
    ensures Core(StartStep(s, t, b, j))
  {
    ItemFits(s, b, j);
    LowIsTask(s, b, j);
    StartTaskKeepsCore(s, TakeOut(s, b, j), t, Content(s.boxes, b)[j].i);
  }

  lemma TaskStepKeepsCore(s: State, a: Action)
    requires Inv(s) && Step(s, a) != s
    requires a.PopLow? || a.StealLow? || a.EndTask? || a.FinishTask? || a.PushTask? || a.InitBundle? || a.EnterSwitch?
             || a.AddReady?
    ensures Core(Step(s, a))
  {
    match a
    case PopLow(t) => StartStepKeepsCore(s, t, LoQ(t), |Content(s.boxes, LoQ(t))| - 1);
    case StealLow(t, v) => StartStepKeepsCore(s, t, LoQ(v), 0);
    case EndTask(t) => EndTaskKeepsCore(s, t);
    case FinishTask(t) => FinishTaskKeepsCore(s, t);
    case PushTask(t, i, high) => PushTaskKeepsCore(s, t, i, high);
    case InitBundle(t, pinned) => InitBundleKeepsCore(s, t, pinned);
    case EnterSwitch(t) => SearchKeepsCore(s, t);
    case AddReady(t, w) => AddReadyKeepsCore(s, t, w);
  }

  lemma StepKeepsCore(s: State, a: Action)
    requires Inv(s) && Step(s, a) != s
    ensures Core(Step(s, a))
  {
    match a
    case BootReserve(t, r) => BootReserveKeepsCore(s, t, r);
    case BootSwitch(t) => BootSwitchKeepsCore(s, t);
    case CleanUp(t) => CleanUpKeepsCore(s, t);
    case TakePinned(t, j) =>
      ItemFits(s, PinnedQ(t), j);
      TakePinnedKeepsCore(s, t, j);
    case SwitchToReady(t) => SwitchToReadyKeepsCore(s, t);
    case Reserve(t, r) => ReserveKeepsCore(s, t, r);
    case SwitchToFree(t) => SwitchToFreeKeepsCore(s, t);
    case _ =>
      if a.PopLow? || a.StealLow? || a.EndTask? || a.FinishTask? || a.PushTask? || a.InitBundle? || a.EnterSwitch?
         || a.AddReady?
      { TaskStepKeepsCore(s, a); }
      else { SearchStepKeepsCore(s, a); }
  }

  lemma StepKeepsInv(s: State, a: Action)
    requires Inv(s)
    ensures Inv(Step(s, a))
  {
    if Step(s, a) != s {
      StepKeepsCore(s, a);
      StepKeepsContents(s, a);
    }
  }

  lemma InitInv(threads: nat, fibers: nat, tasks: nat)
    requires threads >= 1 && fibers >= 1
    ensures Inv(Init(threads, fibers, tasks))
  {
    var s := Init(threads, fibers, tasks);
    forall f | 0 <= f < |s.fibers|
      ensures SpotOk(s.threads, s.fibers, f, s.fibers[f]) && BundleOk(s.fibers, f, s.fibers[f])
      ensures PcOk(s.fibers, s.tasks, f, s.fibers[f])
    {
      assert s.fibers[f] == if f == 0 then MAIN else POOLED;
    }
    forall t | 0 <= t < |s.threads|
      ensures ThreadOk(s.fibers, t, s.threads[t])
    {
      assert s.threads[t].stage.Boot? || t == 0;
    }
    forall x: Item
      ensures BoxOf(s, x) == None
    {
    }
  }

  lemma {:induction false} ExecKeepsInv(threads: nat, fibers: nat, tasks: nat, acts: seq<Action>)
    requires threads >= 1 && fibers >= 1
    ensures Inv(Exec(Init(threads, fibers, tasks), acts))
  {
    if acts == [] {
      InitInv(threads, fibers, tasks);
    } else {
      var before := acts[..|acts| - 1];
      ExecKeepsInv(threads, fibers, tasks, before);
      StepKeepsInv(Exec(Init(threads, fibers, tasks), before), acts[|acts| - 1]);
    }
  }

  // ---- What every run guarantees ----

  // The five places a fiber can be, read off the state the code works with.
  predicate IsFree(s: State, f: nat) { f < |s.fibers| && s.fibers[f].free }

  predicate IsReservedBy(s: State, t: nat, f: nat) { ReservedBy(s.threads, s.fibers, t) == Some(f) }

  predicate IsCurrentOn(s: State, t: nat, f: nat) {
    t < |s.threads| && s.threads[t].stage.Live? && s.threads[t].cur == f
  }

  predicate IsPendingOn(s: State, t: nat, f: nat) { t < |s.threads| && s.threads[t].oldFiber == Some(f) }

  predicate IsParked(s: State, f: nat) {
    f < |s.fibers| && s.fibers[f].pc.ParkedOut? && s.fibers[f].resumes < s.fibers[f].waits && s.fibers[f].flag
  }

  // p is the one place, of all places on all threads, that fiber f is in.
  ghost predicate InPlace(s: State, f: nat, p: Spot) {
    && (IsFree(s, f) <==> p == InPool)
    && (forall t: nat :: IsReservedBy(s, t, f) <==> p == Reserved(t))
    && (forall t: nat :: IsCurrentOn(s, t, f) <==> p == Current(t))
    && (forall t: nat :: IsPendingOn(s, t, f) <==> p == Pending(t))
    && (IsParked(s, f) <==> p == Parked)
  }

  // Every fiber is in exactly one place: free, reserved by one searcher, current on one thread, the
  // old fiber of one thread, or parked behind its bundle.
  lemma OneFiberOnePlace(threads: nat, fibers: nat, tasks: nat, acts: seq<Action>, f: nat)
    requires threads >= 1 && fibers >= 1 && f < |Exec(Init(threads, fibers, tasks), acts).fibers|
    ensures exists p: Spot :: InPlace(Exec(Init(threads, fibers, tasks), acts), f, p)
  {
    ExecKeepsInv(threads, fibers, tasks, acts);
    var s := Exec(Init(threads, fibers, tasks), acts);
    FiberFacts(s, f);
    var p := s.fibers[f].place;
    forall t: nat
      ensures (IsReservedBy(s, t, f) <==> p == Reserved(t)) && (IsCurrentOn(s, t, f) <==> p == Current(t))
        && (IsPendingOn(s, t, f) <==> p == Pending(t))
    {
      PlaceOnThread(s, t, f);
    }
    assert IsParked(s, f) <==> p == Parked;
    assert InPlace(s, f, p);
  }

  lemma PlaceOnThread(s: State, t: nat, f: nat)
    requires Inv(s) && f < |s.fibers|
    ensures IsReservedBy(s, t, f) <==> s.fibers[f].place == Reserved(t)
    ensures IsCurrentOn(s, t, f) <==> s.fibers[f].place == Current(t)
    ensures IsPendingOn(s, t, f) <==> s.fibers[f].place == Pending(t)
  {
    FiberFacts(s, f);
    if t < |s.threads| {
      ThreadFacts(s, t);
      if s.threads[t].stage.Live? { CurFacts(s, t); }
    }
  }

  // No two threads ever run on the same fiber's stack.
  lemma NoSharedStack(threads: nat, fibers: nat, tasks: nat, acts: seq<Action>, t: nat, u: nat, f: nat)
    requires threads >= 1 && fibers >= 1
    requires var s := Exec(Init(threads, fibers, tasks), acts); IsCurrentOn(s, t, f) && IsCurrentOn(s, u, f)
    ensures t == u
  {
    ExecKeepsInv(threads, fibers, tasks, acts);
    var s := Exec(Init(threads, fibers, tasks), acts);
    ThreadFacts(s, t);
    ThreadFacts(s, u);
  }

  // CleanUpOldFiber has run exactly once since a thread's last switch whenever it switches again, and
  // by then nothing is left for the switch to overwrite.
  lemma CleanUpOncePerSwitch(threads: nat, fibers: nat, tasks: nat, acts: seq<Action>, a: Action)
    requires threads >= 1 && fibers >= 1
    requires var s := Exec(Init(threads, fibers, tasks), acts); IsSwitch(a) && Step(s, a) != s
    ensures var s := Exec(Init(threads, fibers, tasks), acts);
      var s' := Step(s, a);
      && a.t < |s.threads| && a.t < |s'.threads|
      && s.threads[a.t].cleanups == 1 && s.threads[a.t].dest == Nowhere && s.threads[a.t].oldFiber == None
      && s'.threads[a.t].cleanups == 0 && s'.threads[a.t].oldFiber == Some(s.threads[a.t].cur)
  {
    ExecKeepsInv(threads, fibers, tasks, acts);
    var s := Exec(Init(threads, fibers, tasks), acts);
    ThreadFacts(s, a.t);
  }

  // A fiber whose cleanup is due does nothing else first, whichever point it resumes at.
  lemma CleanUpComesFirst(threads: nat, fibers: nat, tasks: nat, acts: seq<Action>, a: Action)
    requires threads >= 1 && fibers >= 1
    requires var s := Exec(Init(threads, fibers, tasks), acts);
      Runs(s, a.t) && s.threads[a.t].dest != Nowhere && Step(s, a) != s
    ensures a == CleanUp(a.t)
    ensures var s' := Step(Exec(Init(threads, fibers, tasks), acts), a);
      a.t < |s'.threads| && s'.threads[a.t].dest == Nowhere && s'.threads[a.t].cleanups == 1
  {
    ExecKeepsInv(threads, fibers, tasks, acts);
    var s := Exec(Init(threads, fibers, tasks), acts);
    ThreadFacts(s, a.t);
    CurFacts(s, a.t);
    NobodyElse(s, a.t);
    OnlyCleanUp(s, a);
    if s.threads[a.t].oldFiber.Some? { FiberFacts(s, s.threads[a.t].oldFiber.value); }
    CleanUpShape(s, a.t);
  }

  lemma OnlyCleanUp(s: State, a: Action)
    requires Runs(s, a.t) && AtResumePoint(Cur(s, a.t).pc) && Step(s, a) != s
    ensures a == CleanUp(a.t)
  {
  }

  // A ready fiber is resumed at most once per wait, only after its flag was set, and on the thread it
  // is pinned to.
  lemma ResumedOncePerWait(threads: nat, fibers: nat, tasks: nat, acts: seq<Action>, t: nat)
    requires threads >= 1 && fibers >= 1
    requires var s := Exec(Init(threads, fibers, tasks), acts); Step(s, SwitchToReady(t)) != s
    ensures var s := Exec(Init(threads, fibers, tasks), acts);
      var s' := Step(s, SwitchToReady(t));
      && t < |s'.threads| && |s'.fibers| == |s.fibers|
      && var w := s'.threads[t].cur;
         && w < |s.fibers| && IsParked(s, w) && s.fibers[w].flag
         && s.fibers[w].waits == s.fibers[w].resumes + 1
         && s'.fibers[w].waits == s'.fibers[w].resumes
         && (s.fibers[w].pin.Some? ==> s.fibers[w].pin.value == t)
  {
    ExecKeepsInv(threads, fibers, tasks, acts);
    var s := Exec(Init(threads, fibers, tasks), acts);
    CurFacts(s, t);
    FiberFacts(s, Cur(s, t).pc.w);
  }

  // A fiber's flag is set only by the thread that left it, before the fiber has resumed.
  lemma FlagSetByLeaver(threads: nat, fibers: nat, tasks: nat, acts: seq<Action>, a: Action, w: nat)
    requires threads >= 1 && fibers >= 1
    requires var s := Exec(Init(threads, fibers, tasks), acts);
      w < |s.fibers| && w < |Step(s, a).fibers| && !s.fibers[w].flag && Step(s, a).fibers[w].flag
    ensures var s := Exec(Init(threads, fibers, tasks), acts);
      && a.CleanUp? && IsPendingOn(s, a.t, w)
      && s.fibers[w].pc.ParkedOut? && s.fibers[w].waits == s.fibers[w].resumes + 1
  {
    ExecKeepsInv(threads, fibers, tasks, acts);
    var s := Exec(Init(threads, fibers, tasks), acts);
    OnlyCleanUpSetsFlags(s, a, w);
    ThreadFacts(s, a.t);
    FiberFacts(s, s.threads[a.t].oldFiber.value);
  }

  lemma OnlyCleanUpSetsFlags(s: State, a: Action, w: nat)
    requires w < |s.fibers| && w < |Step(s, a).fibers| && !s.fibers[w].flag && Step(s, a).fibers[w].flag
    ensures a.CleanUp? && a.t < |s.threads| && s.threads[a.t].dest.ToWaiting? && s.threads[a.t].flag == Some(w)
  {
    if Source(s, a).Some? { TakingSetsNoFlag(s, a, w); }
    else if Puts(a) { PuttingSetsNoFlag(s, a, w); }
    else if Claims(a) { ClaimingSetsNoFlag(s, a, w); }
    else if !a.CleanUp? { StepSetsNoFlag(s, a, w); }
  }

  lemma TakingSetsNoFlag(s: State, a: Action, w: nat)
    requires Source(s, a).Some? && w < |s.fibers| && w < |Step(s, a).fibers| && Step(s, a).fibers[w].flag
    ensures s.fibers[w].flag
  {
  }

  lemma PuttingSetsNoFlag(s: State, a: Action, w: nat)
    requires Puts(a) && w < |s.fibers| && w < |Step(s, a).fibers| && Step(s, a).fibers[w].flag
    ensures s.fibers[w].flag
  {
  }

  // Reserving a free fiber and switching.
  predicate Claims(a: Action) {
    a.BootReserve? || a.BootSwitch? || a.Reserve? || IsSwitch(a)
  }

  lemma ClaimingSetsNoFlag(s: State, a: Action, w: nat)
    requires Claims(a) && w < |s.fibers| && w < |Step(s, a).fibers| && Step(s, a).fibers[w].flag
    ensures s.fibers[w].flag
  {
  }

  lemma StepSetsNoFlag(s: State, a: Action, w: nat)
    requires !a.CleanUp? && Source(s, a).None? && !Puts(a) && !Claims(a)
    requires w < |s.fibers| && w < |Step(s, a).fibers| && Step(s, a).fibers[w].flag
    ensures s.fibers[w].flag
  {
  }

  // CleanUpOldFiber writes only the flag of a fiber that is still away.
  lemma CleanUpWritesPendingFlag(threads: nat, fibers: nat, tasks: nat, acts: seq<Action>, t: nat)
    requires threads >= 1 && fibers >= 1
    requires var s := Exec(Init(threads, fibers, tasks), acts);
      t < |s.threads| && s.threads[t].dest.ToWaiting?
    ensures var s := Exec(Init(threads, fibers, tasks), acts);
      && s.threads[t].flag.Some? && s.threads[t].flag == s.threads[t].oldFiber && s.threads[t].flag.value < |s.fibers|
      && var x := s.fibers[s.threads[t].flag.value];
         x.pc.ParkedOut? && !x.flag && x.waits == x.resumes + 1 && x.loc != NoBundle
  {
    ExecKeepsInv(threads, fibers, tasks, acts);
    var s := Exec(Init(threads, fibers, tasks), acts);
    ThreadFacts(s, t);
    FiberFacts(s, s.threads[t].oldFiber.value);
  }

  // A place an item can be: at a position of a box, or with a fiber that took it from one.
  datatype Slot = AtPosition(b: Box, j: nat) | With(g: nat)

  predicate Holds(s: State, p: Slot, x: Item) {
    match p
    case AtPosition(b, j) => j < |Content(s.boxes, b)| && Content(s.boxes, b)[j] == x
    case With(g) =>
      && g < |s.fibers|
      && (Grasp(s.fibers[g].pc) == Some(x) || (s.fibers[g].pc.Resuming? && x == ReadyFiber(s.fibers[g].pc.w)))
  }

  // How often item x was put on a queue, less how often it was run or switched to.
  function Owed(s: State, x: Item): int {
    match x
    case Task(i) => if i < |s.tasks| then s.tasks[i].pushes - s.tasks[i].runs else 0
    case ReadyFiber(w) => if w < |s.fibers| then s.fibers[w].readied - s.fibers[w].resumes else 0
  }

  // Who has item x in hand, by the history.
  function HandOf(s: State, x: Item): Link {
    match x
    case Task(i) => if i < |s.tasks| && s.tasks[i].loc.InHand? then Some(s.tasks[i].loc.g) else None
    case ReadyFiber(w) =>
      if w < |s.fibers| && (s.fibers[w].loc.Hand? || s.fibers[w].loc.Taken?) then Some(s.fibers[w].loc.g) else None
  }

  lemma HeldWhereHistorySays(s: State, p: Slot, x: Item)
    requires Inv(s)
    ensures p.AtPosition? && Holds(s, p, x) ==> BoxOf(s, x) == Some(p.b)
    ensures p.With? ==> (Holds(s, p, x) <==> HandOf(s, x) == Some(p.g))
  {
    match p
    case AtPosition(b, j) =>
    case With(g) =>
      if g < |s.fibers| { FiberFacts(s, g); }
      match x {
        case Task(i) => if i < |s.tasks| { TaskFacts(s, i); }
        case ReadyFiber(w) => if w < |s.fibers| { FiberFacts(s, w); }
      }
  }

  lemma OwedWhereHistorySays(s: State, x: Item)
    requires Inv(s)
    ensures Owed(s, x) == if BoxOf(s, x).Some? || HandOf(s, x).Some? then 1 else 0
  {
    match x
    case Task(i) => if i < |s.tasks| { TaskFacts(s, i); }
    case ReadyFiber(w) => if w < |s.fibers| { FiberFacts(s, w); }
  }

  // Every task and every ready fiber is in at most one place over all queues, pinned lists, buffers and
  // hands; and it is in one exactly when it was put on a queue and has not been run, or resumed, since.
  lemma EachItemOnce(threads: nat, fibers: nat, tasks: nat, acts: seq<Action>, x: Item)
    requires threads >= 1 && fibers >= 1
    ensures var s := Exec(Init(threads, fibers, tasks), acts);
      && (forall p, q | Holds(s, p, x) && Holds(s, q, x) :: p == q)
      && 0 <= Owed(s, x) <= 1
      && ((exists p :: Holds(s, p, x)) <==> Owed(s, x) == 1)
  {
    ExecKeepsInv(threads, fibers, tasks, acts);
    ItemIsOnce(Exec(Init(threads, fibers, tasks), acts), x);
  }

  lemma ItemIsOnce(s: State, x: Item)
    requires Inv(s)
    ensures forall p, q | Holds(s, p, x) && Holds(s, q, x) :: p == q
    ensures 0 <= Owed(s, x) <= 1
    ensures (exists p :: Holds(s, p, x)) <==> Owed(s, x) == 1
  {
    OwedWhereHistorySays(s, x);
    forall p | Holds(s, p, x)
      ensures if p.AtPosition? then BoxOf(s, x) == Some(p.b) else HandOf(s, x) == Some(p.g)
    {
      HeldWhereHistorySays(s, p, x);
    }
    if BoxOf(s, x).Some? {
      var c := Content(s.boxes, BoxOf(s, x).value);
      var j :| 0 <= j < |c| && c[j] == x;
      assert Holds(s, AtPosition(BoxOf(s, x).value, j), x);
    } else if HandOf(s, x).Some? {
      HeldWhereHistorySays(s, With(HandOf(s, x).value), x);
      assert Holds(s, With(HandOf(s, x).value), x);
    }
  }

  // No task is started twice; one that was pushed and that no queue, buffer or hand holds has been
  // started, and so has every finished one. Outside a search the searching fiber's buffer is empty.
  lemma TasksRunOnce(threads: nat, fibers: nat, tasks: nat, acts: seq<Action>, i: nat)
    requires threads >= 1 && fibers >= 1 && i < |Exec(Init(threads, fibers, tasks), acts).tasks|
    ensures var s := Exec(Init(threads, fibers, tasks), acts);
      && s.tasks[i].runs <= s.tasks[i].pushes <= 1
      && (s.tasks[i].pushes == 1 && (forall p :: !Holds(s, p, Task(i))) ==> s.tasks[i].runs == 1)
      && (s.tasks[i].loc.Finished? ==> s.tasks[i].runs == 1)
      && (forall g: nat | Content(s.boxes, TaskBuffer(g)) != [] :: g < |s.fibers| && InSearch(s.fibers[g].pc))
  {
    ExecKeepsInv(threads, fibers, tasks, acts);
    var s := Exec(Init(threads, fibers, tasks), acts);
    TaskFacts(s, i);
    ItemIsOnce(s, Task(i));
    forall g: nat | Content(s.boxes, TaskBuffer(g)) != []
      ensures g < |s.fibers| && InSearch(s.fibers[g].pc)
    {
      var x := Content(s.boxes, TaskBuffer(g))[0];
      ItemFits(s, TaskBuffer(g), 0);
      match x
      case Task(k) => TaskFacts(s, k);
      case ReadyFiber(w) => FiberFacts(s, w);
    }
  }

  // ---- The queues are used as the deques they are ----

  // The fiber running on thread t has item x off the queues, or has started it.
  predicate HasItem(s: State, t: nat, x: Item) {
    Runs(s, t) && (Holds(s, With(s.threads[t].cur), x) || (x.Task? && Cur(s, t).job == Some(x.i)))
  }

  // One deque operation on queue b: pushing and popping is thread b.t's alone, stealing the others'.
  ghost predicate OneOperation(s: State, a: Action, b: Box, op: D.Op<Item>)
    requires b.HiQ? || b.LoQ?
  {
    && D.Does(op, Content(s.boxes, b), Content(Step(s, a).boxes, b))
    && (op.PushBack? ==> a.t == b.t)
    && (op.TakeBack? ==> a.t == b.t && HasItem(Step(s, a), a.t, op.x))
    && (op.TakeFront? ==> a.t != b.t && HasItem(Step(s, a), a.t, op.x))
  }

  ghost predicate DoesOneOperation(s: State, a: Action, b: Box)
    requires b.HiQ? || b.LoQ?
  {
    exists op :: OneOperation(s, a, b, op)
  }

  // Each step does at most one operation on each queue, as the deque's owner or as a thief, and changes
  // at most one queue.
  lemma QueuesAreDeques(threads: nat, fibers: nat, tasks: nat, acts: seq<Action>, a: Action)
    requires threads >= 1 && fibers >= 1
    ensures var s := Exec(Init(threads, fibers, tasks), acts);
      && (forall b: Box | b.HiQ? || b.LoQ? :: DoesOneOperation(s, a, b))
      && (forall b: Box, c: Box | b != c && (b.HiQ? || b.LoQ?) && (c.HiQ? || c.LoQ?) ::
            Content(Step(s, a).boxes, b) == Content(s.boxes, b) || Content(Step(s, a).boxes, c) == Content(s.boxes, c))
  {
    ExecKeepsInv(threads, fibers, tasks, acts);
    var s := Exec(Init(threads, fibers, tasks), acts);
    var q := Target(s, a);
    forall b: Box | b.HiQ? || b.LoQ?
      ensures DoesOneOperation(s, a, b)
      ensures b != q ==> Content(Step(s, a).boxes, b) == Content(s.boxes, b)
    {
      OperationOnQueue(s, a, b);
    }
  }

  // The one queue that action a may change.
  function Target(s: State, a: Action): Box {
    match a
    case StealHi(t, v) => HiQ(v)
    case PopLow(t) => LoQ(t)
    case StealLow(t, v) => LoQ(v)
    case PushTask(t, _, high) => if high then HiQ(t) else LoQ(t)
    case _ => HiQ(a.t)
  }

  lemma OperationOnQueue(s: State, a: Action, b: Box)
    requires Inv(s) && (b.HiQ? || b.LoQ?)
    ensures DoesOneOperation(s, a, b)
    ensures b != Target(s, a) ==> Content(Step(s, a).boxes, b) == Content(s.boxes, b)
  {
    if Step(s, a) == s {
      assert OneOperation(s, a, b, D.Nothing);
    } else if Source(s, a).Some? {
      TakeIsOperation(s, a, b);
    } else if Puts(a) {
      PushIsOperation(s, a, b);
    } else {
      StayIsNoOperation(s, a);
      assert OneOperation(s, a, b, D.Nothing);
    }
  }

  lemma StayIsNoOperation(s: State, a: Action)
    requires Source(s, a).None? && !Puts(a)
    ensures Step(s, a).boxes == s.boxes
  {
  }

  lemma PushIsOperation(s: State, a: Action, b: Box)
    requires Step(s, a) != s && (b.HiQ? || b.LoQ?) && Puts(a)
    ensures DoesOneOperation(s, a, b)
    ensures b != Target(s, a) ==> Content(Step(s, a).boxes, b) == Content(s.boxes, b)
  {
    var c, c' := Content(s.boxes, b), Content(Step(s, a).boxes, b);
    if c' == c {
      assert OneOperation(s, a, b, D.Nothing);
    } else {
      assert OneOperation(s, a, b, D.PushBack(c'[|c'| - 1]));
    }
  }

  lemma TakeIsOperation(s: State, a: Action, b: Box)
    requires Inv(s) && Step(s, a) != s && (b.HiQ? || b.LoQ?) && Source(s, a).Some?
    ensures DoesOneOperation(s, a, b)
    ensures b != Target(s, a) ==> Content(Step(s, a).boxes, b) == Content(s.boxes, b)
  {
    var (from, j) := Source(s, a).value;
    var c := Content(s.boxes, from);
    if 0 <= j < |c| {
      ItemFits(s, from, j);
      if from.LoQ? { LowIsTask(s, from, j); }
    }
    TakesItem(s, a, from, j);
    if b != from {
      assert OneOperation(s, a, b, D.Nothing);
    } else {
      NowHasItem(s, a, from, j);
      TakeFromEnd(s, a, b, j);
    }
  }

  lemma TakeFromEnd(s: State, a: Action, b: Box, j: nat)
    requires Step(s, a) != s && Source(s, a) == Some((b, j)) && (b.HiQ? || b.LoQ?)
    requires j < |Content(s.boxes, b)| && Step(s, a).boxes == TakeOut(s, b, j).boxes
    requires HasItem(Step(s, a), a.t, Content(s.boxes, b)[j])
    ensures DoesOneOperation(s, a, b)
  {
    var c := Content(s.boxes, b);
    WithoutEnds(c);
    assert Content(Step(s, a).boxes, b) == Without(c, j);
    if a.PopHi? || a.PopLow? {
      assert OneOperation(s, a, b, D.TakeBack(c[j]));
    } else {
      assert OneOperation(s, a, b, D.TakeFront(c[j]));
    }
  }

  lemma WithoutEnds<X>(c: seq<X>)
    requires |c| > 0
    ensures c == [c[0]] + Without(c, 0) && c == Without(c, |c| - 1) + [c[|c| - 1]]
  {
  }

  lemma NowHasItem(s: State, a: Action, b: Box, j: nat)
    requires Step(s, a) != s && Source(s, a) == Some((b, j)) && (b.HiQ? || b.LoQ?) && j < |Content(s.boxes, b)|
    requires b.LoQ? ==> Content(s.boxes, b)[j].Task?
    requires BoxOf(s, Content(s.boxes, b)[j]).Some?
    ensures HasItem(Step(s, a), a.t, Content(s.boxes, b)[j])
  {
  }
}

/** Sleeping, waking and pinned ready fibers under EmptyQueueBehavior::Sleep, for any number of
    threads. A mutex is the thread that owns it; the condition variable is the set of threads at
    Asleep, which wait puts a thread into in the step that releases ThreadSleepLock. A sleeper may
    also be woken at any time, which stands for spurious wake-ups and for the notifies made without
    the lock. Of a search for tasks only the outcome matters here.

    pushed and taken are history, read by no step's control flow. */
module SleepMachine {
  import opened Options
  import opened WaiterList

  const ATTEMPTS: nat := 5

  datatype Pc =
    // the worker loop
    | Top
    | Scanning                // holds its own PinnedReadyFibersLock
    | Searching(ready: bool)  // ready: the scan saw a pinned fiber
    | WantSleep
    | HasSleepLock
    | Checking                // holds both locks
    | AboutToWait
    | Asleep
    | Woken                   // wait still has to lock ThreadSleepLock again
    | Backing                 // about to release ThreadSleepLock
    // tasks and fibers
    | Working
    // AddReadyFiber of fiber w, pinned to thread p
    | WantPush(w: nat, p: nat)
    | Pushing(w: nat, p: nat) // holds p's PinnedReadyFibersLock
    | Pushed(p: nat)          // still holds it
    | WantNotify(p: nat)
    | Notifying(p: nat)       // holds ThreadSleepLock
    | Notified

  // readyLock[t] is thread t's PinnedReadyFibersLock, pinned[t] its PinnedReadyFibers.
  datatype State = State(
    pc: seq<Pc>,
    attempts: seq<nat>,
    pinned: seq<seq<nat>>,
    readyLock: seq<Link>,
    sleepLock: Link,
    switched: set<nat>,
    pushed: seq<seq<nat>>,
    taken: seq<seq<nat>>)

  // What a search comes to.
  datatype Found = Nothing | FoundTask | FoundFiber

  // Run is thread t's next step; found is what its search finds. EndWork brings a thread back to the
  // top of the loop; only a fiber that comes back from the pool resets the attempts then.
  datatype Action =
    | Run(t: nat, found: Found)
    | AddReady(t: nat, w: nat, p: nat)
    | EndWork(t: nat, reset: bool)
    | Wake(t: nat)
    | Switched(w: nat)

  function Init(threads: nat): State {
    State(seq(threads, _ => Top), seq(threads, _ => 0), seq(threads, _ => []), seq(threads, _ => None), None, {},
          seq(threads, _ => []), seq(threads, _ => []))
  }

  predicate Sized(s: State) {
    |s.pc| == |s.attempts| == |s.pinned| == |s.readyLock| == |s.pushed| == |s.taken|
  }

  function Goto(s: State, t: nat, pc: Pc): State {
    s.(pc := Set(s.pc, t, pc))
  }

  // The first listed fiber that has been switched away from, if any: its position, or the length.
  function FirstSwitched(q: seq<nat>, switched: set<nat>): (i: nat)
    ensures i <= |q| && (forall j | 0 <= j < i :: q[j] !in switched) && (i < |q| ==> q[i] in switched)
  {
    if q == [] || q[0] in switched then 0 else 1 + FirstSwitched(q[1..], switched)
  }

  // The scan of the worker loop: take the first pinned fiber whose flag is set.
  function ScanStep(s: State, t: nat): State
    requires Sized(s) && t < |s.pc|
  {
    var q := s.pinned[t];
    var i := FirstSwitched(q, s.switched);
    var s1 := s.(readyLock := s.readyLock[t := None]);
    if i < |q|
    then Goto(s1.(pinned := s.pinned[t := q[..i] + q[i + 1..]], taken := s.taken[t := s.taken[t] + [q[i]]],
                  switched := s.switched - {q[i]}), t, Working)
    else Goto(s1, t, Searching(q != []))
  }

  function LoopStep(s: State, t: nat, found: Found): State
    requires Sized(s) && t < |s.pc|
  {
    match s.pc[t]
    case Top => if s.readyLock[t].None? then Goto(s.(readyLock := s.readyLock[t := Some(t)]), t, Scanning) else s
    case Scanning => ScanStep(s, t)
    case Searching(ready) =>
      if found.FoundTask? then Goto(s.(attempts := s.attempts[t := 0]), t, Working)
      else if found.FoundFiber? then Goto(s, t, Working)
      else if ready then Goto(s, t, Top)
      else Goto(s.(attempts := s.attempts[t := s.attempts[t] + 1]), t,
                if s.attempts[t] + 1 >= ATTEMPTS then WantSleep else Top)
    case WantSleep => if s.sleepLock.None? then Goto(s.(sleepLock := Some(t)), t, HasSleepLock) else s
    case HasSleepLock =>
      if s.readyLock[t].None? then Goto(s.(readyLock := s.readyLock[t := Some(t)]), t, Checking) else s
    case Checking =>
      Goto(s.(readyLock := s.readyLock[t := None]), t, if s.pinned[t] == [] then AboutToWait else Backing)
    case AboutToWait => Goto(s.(sleepLock := None), t, Asleep)
    case Woken => if s.sleepLock.None? then Goto(s.(sleepLock := Some(t)), t, Backing) else s
    case Backing => Goto(s.(sleepLock := None, attempts := s.attempts[t := 0]), t, Top)
    case _ => s
  }

  function WakeAll(pcs: seq<Pc>): seq<Pc> {
    seq(|pcs|, i requires 0 <= i < |pcs| => if pcs[i].Asleep? then Woken else pcs[i])
  }

  function AddReadyStep(s: State, t: nat): State
    requires Sized(s) && t < |s.pc|
  {
    match s.pc[t]
    case WantPush(w, p) =>
      if p < |s.pc| && s.readyLock[p].None?
      then Goto(s.(readyLock := s.readyLock[p := Some(t)]), t, Pushing(w, p)) else s
    case Pushing(w, p) =>
      if p < |s.pc|
      then Goto(s.(pinned := s.pinned[p := s.pinned[p] + [w]], pushed := s.pushed[p := s.pushed[p] + [w]]),
                t, Pushed(p))
      else s
    case Pushed(p) =>
      if p < |s.pc| then Goto(s.(readyLock := s.readyLock[p := None]), t, if t != p then WantNotify(p) else Working)
      else s
    case WantNotify(p) => if s.sleepLock.None? then Goto(s.(sleepLock := Some(t)), t, Notifying(p)) else s
    case Notifying(p) => Goto(s.(pc := WakeAll(s.pc)), t, Notified)
    case Notified => Goto(s.(sleepLock := None), t, Working)
    case _ => s
  }

  predicate InLoop(pc: Pc) {
    pc.Top? || pc.Scanning? || pc.Searching? || pc.WantSleep? || pc.HasSleepLock? || pc.Checking? || pc.AboutToWait?
    || pc.Woken? || pc.Backing?
  }

  function Step(s: State, a: Action): State
    requires Sized(s)
  {
    match a
    case Run(t, found) =>
      if t >= |s.pc| then s else if InLoop(s.pc[t]) then LoopStep(s, t, found) else AddReadyStep(s, t)
    case AddReady(t, w, p) => if t < |s.pc| && s.pc[t].Working? && p < |s.pc| then Goto(s, t, WantPush(w, p)) else s
    case EndWork(t, reset) =>
      if t < |s.pc| && s.pc[t].Working?
      then Goto(if reset then s.(attempts := s.attempts[t := 0]) else s, t, Top) else s
    case Wake(t) => if t < |s.pc| && s.pc[t].Asleep? then Goto(s, t, Woken) else s
    case Switched(w) => s.(switched := s.switched + {w})
  }

  lemma StepKeepsSized(s: State, a: Action)
    requires Sized(s)
    ensures Sized(Step(s, a)) && |Step(s, a).pc| == |s.pc|
  {
  }

  function Exec(s: State, acts: seq<Action>): (s': State)
    requires Sized(s)
    ensures Sized(s') && |s'.pc| == |s.pc|
  {
    if acts == [] then s
    else
      StepKeepsSized(Exec(s, acts[..|acts| - 1]), acts[|acts| - 1]);
      Step(Exec(s, acts[..|acts| - 1]), acts[|acts| - 1])
  }

  // ---- The invariant ----

  predicate HoldsSleep(pc: Pc) {
    pc.HasSleepLock? || pc.Checking? || pc.AboutToWait? || pc.Backing? || pc.Notifying? || pc.Notified?
  }

  // The thread whose PinnedReadyFibersLock thread t holds.
  function HoldsReady(pc: Pc, t: nat): Link {
    match pc
    case Scanning => Some(t)
    case Checking => Some(t)
    case Pushing(_, p) => Some(p)
    case Pushed(p) => Some(p)
    case _ => None
  }

  // From its push onto p's list until its notify_all for p.
  predicate OwesNotify(pc: Pc, p: nat) {
    (pc.Pushed? || pc.WantNotify? || pc.Notifying?) && pc.p == p
  }

  ghost predicate SleepLockOk(pcs: seq<Pc>, lock: Link) {
    && (forall t: nat | t < |pcs| :: HoldsSleep(pcs[t]) <==> lock == Some(t))
    && (lock.Some? ==> lock.value < |pcs|)
  }

  ghost predicate ReadyLocksOk(pcs: seq<Pc>, locks: seq<Link>) {
    && |locks| == |pcs|
    && (forall t: nat, p: nat {:trigger pcs[t], locks[p]} | t < |pcs| && p < |pcs| ::
          HoldsReady(pcs[t], t) == Some(p) <==> locks[p] == Some(t))
  }

  // Thread p is past its last look at its list, and not yet awake.
  predicate Committed(pc: Pc) {
    pc.AboutToWait? || pc.Asleep?
  }

  ghost predicate SomebodyOwes(pcs: seq<Pc>, p: nat) {
    exists q: nat :: q < |pcs| && q != p && OwesNotify(pcs[q], p)
  }

  ghost predicate SleepersOk(pcs: seq<Pc>, pinned: seq<seq<nat>>) {
    && |pinned| == |pcs|
    && forall p: nat {:trigger pinned[p]} | p < |pcs| && Committed(pcs[p]) && pinned[p] != [] :: SomebodyOwes(pcs, p)
  }

  ghost predicate ListsOk(pushed: seq<seq<nat>>, taken: seq<seq<nat>>, pinned: seq<seq<nat>>) {
    && |pushed| == |taken| == |pinned|
    && forall p: nat {:trigger pinned[p]} | p < |pinned| ::
         multiset(pushed[p]) == multiset(taken[p]) + multiset(pinned[p])
  }

  predicate InRange(pc: Pc, n: nat) {
    pc.Pushing? || pc.Pushed? ==> pc.p < n
  }

  ghost predicate RangesOk(pcs: seq<Pc>) {
    forall t: nat {:trigger pcs[t]} | t < |pcs| :: InRange(pcs[t], |pcs|)
  }

  ghost predicate Inv(s: State) {
    && Sized(s) && RangesOk(s.pc)
    && SleepLockOk(s.pc, s.sleepLock) && ReadyLocksOk(s.pc, s.readyLock)
    && SleepersOk(s.pc, s.pinned)
    && ListsOk(s.pushed, s.taken, s.pinned)
  }

  // ---- One thread's step ----

  predicate SleepMove(lock: Link, lock': Link, t: nat, pc: Pc, pc': Pc) {
    if HoldsSleep(pc) == HoldsSleep(pc') then lock' == lock
    else if HoldsSleep(pc) then lock' == None
    else lock == None && lock' == Some(t)
  }

  lemma SleepLockKeeps(pcs: seq<Pc>, lock: Link, t: nat, pc: Pc, lock': Link)
    requires SleepLockOk(pcs, lock) && t < |pcs| && SleepMove(lock, lock', t, pcs[t], pc)
    ensures SleepLockOk(pcs[t := pc], lock')
  {
  }

  predicate ReadyMove(locks: seq<Link>, locks': seq<Link>, t: nat, pc: Pc, pc': Pc) {
    var p, p' := HoldsReady(pc, t), HoldsReady(pc', t);
    if p == p' then locks' == locks
    else if p'.None? then p.value < |locks| && locks' == locks[p.value := None]
    else p.None? && p'.value < |locks| && locks[p'.value].None? && locks' == locks[p'.value := Some(t)]
  }

  lemma ReadyLocksKeep(pcs: seq<Pc>, locks: seq<Link>, t: nat, pc: Pc, locks': seq<Link>)
    requires ReadyLocksOk(pcs, locks) && t < |pcs| && ReadyMove(locks, locks', t, pcs[t], pc)
    ensures ReadyLocksOk(pcs[t := pc], locks')
  {
    var pcs' := pcs[t := pc];
    forall u: nat, p: nat | u < |pcs| && p < |pcs|
      ensures HoldsReady(pcs'[u], u) == Some(p) <==> locks'[p] == Some(u)
    {
      assert HoldsReady(pcs[u], u) == Some(p) <==> locks[p] == Some(u);
      assert HoldsReady(pcs[t], t) == Some(p) <==> locks[p] == Some(t);
    }
  }

  // Thread t commits only after finding its list empty, leaves a fiber only on a list whose thread it
  // owes a notify, and stops owing one only to itself.
  predicate PinnedMove(pinned: seq<seq<nat>>, pinned': seq<seq<nat>>, t: nat, pc: Pc, pc': Pc) {
    && |pinned'| == |pinned| && t < |pinned|
    && (Committed(pc') ==> (Committed(pc) || pinned[t] == []) && pinned' == pinned)
    && (pc'.Pushed? || pc'.WantNotify? || pc'.Notifying? || !(pc.Pushed? || pc.WantNotify? || pc.Notifying?)
        || pc == Pushed(t))
    && ((pc.Pushed? || pc.WantNotify? || pc.Notifying?) && (pc'.Pushed? || pc'.WantNotify? || pc'.Notifying?) ==>
         pc'.p == pc.p)
    && (pinned' == pinned || pinned' == pinned[t := pinned'[t]]
        || (pc'.Pushed? && pc'.p < |pinned| && pinned' == pinned[pc'.p := pinned'[pc'.p]]))
  }

  lemma SleepersKeep(pcs: seq<Pc>, pinned: seq<seq<nat>>, t: nat, pc: Pc, pinned': seq<seq<nat>>)
    requires SleepersOk(pcs, pinned) && t < |pcs| && PinnedMove(pinned, pinned', t, pcs[t], pc)
    ensures SleepersOk(pcs[t := pc], pinned')
  {
    var pcs' := pcs[t := pc];
    forall p: nat | p < |pcs| && Committed(pcs'[p]) && pinned'[p] != []
      ensures SomebodyOwes(pcs', p)
    {
      if Committed(pcs[p]) && pinned[p] != [] {
        var q: nat :| q < |pcs| && q != p && OwesNotify(pcs[q], p);
        assert OwesNotify(pcs'[q], p);
      } else {
        assert p != t;
        assert OwesNotify(pcs'[t], p);
      }
    }
  }

  predicate ListMove(s: State, s': State, t: nat)
    requires Sized(s) && Sized(s') && |s'.pc| == |s.pc| && t < |s.pc|
  {
    || (s'.pushed == s.pushed && s'.taken == s.taken && s'.pinned == s.pinned)
    || (s'.pushed == s.pushed && exists i | 0 <= i < |s.pinned[t]| ::
          && s'.taken == s.taken[t := s.taken[t] + [s.pinned[t][i]]]
          && s'.pinned == s.pinned[t := s.pinned[t][..i] + s.pinned[t][i + 1..]])
    || (s'.taken == s.taken && s.pc[t].Pushing? && s.pc[t].p < |s.pc|
        && s'.pushed == s.pushed[s.pc[t].p := s.pushed[s.pc[t].p] + [s.pc[t].w]]
        && s'.pinned == s.pinned[s.pc[t].p := s.pinned[s.pc[t].p] + [s.pc[t].w]])
  }

  lemma RemoveOne(q: seq<nat>, i: nat)
    requires i < |q|
    ensures multiset(q) == multiset(q[..i] + q[i + 1..]) + multiset{q[i]}
  {
    assert q == q[..i] + [q[i]] + q[i + 1..];
  }

  lemma ListsKeep(s: State, s': State, t: nat)
    requires Sized(s) && Sized(s') && |s'.pc| == |s.pc| && t < |s.pc| && ListMove(s, s', t)
    requires ListsOk(s.pushed, s.taken, s.pinned)
    ensures ListsOk(s'.pushed, s'.taken, s'.pinned)
  {
    if s'.taken != s.taken {
      var i :| 0 <= i < |s.pinned[t]| && s'.taken == s.taken[t := s.taken[t] + [s.pinned[t][i]]]
        && s'.pinned == s.pinned[t := s.pinned[t][..i] + s.pinned[t][i + 1..]];
      RemoveOne(s.pinned[t], i);
    }
  }

  // All that one thread's step must satisfy.
  ghost predicate Fits(s: State, s': State, t: nat)
    requires Sized(s) && t < |s.pc|
  {
    && Sized(s') && |s'.pc| == |s.pc| && s'.pc == s.pc[t := s'.pc[t]] && InRange(s'.pc[t], |s.pc|)
    && SleepMove(s.sleepLock, s'.sleepLock, t, s.pc[t], s'.pc[t])
    && ReadyMove(s.readyLock, s'.readyLock, t, s.pc[t], s'.pc[t])
    && PinnedMove(s.pinned, s'.pinned, t, s.pc[t], s'.pc[t])
    && ListMove(s, s', t)
  }

  lemma FitsKeepsInv(s: State, s': State, t: nat)
    requires Inv(s) && t < |s.pc| && Fits(s, s', t)
    ensures Inv(s')
  {
    var pc := s'.pc[t];
    SleepLockKeeps(s.pc, s.sleepLock, t, pc, s'.sleepLock);
    ReadyLocksKeep(s.pc, s.readyLock, t, pc, s'.readyLock);
    SleepersKeep(s.pc, s.pinned, t, pc, s'.pinned);
    ListsKeep(s, s', t);
  }

  lemma ScanFits(s: State, t: nat)
    requires Sized(s) && t < |s.pc| && s.pc[t].Scanning?
    ensures Fits(s, ScanStep(s, t), t)
  {
    var q, s' := s.pinned[t], ScanStep(s, t);
    var i := FirstSwitched(q, s.switched);
    if i < |q| {
      assert s'.taken == s.taken[t := s.taken[t] + [q[i]]] && s'.pinned == s.pinned[t := q[..i] + q[i + 1..]];
    }
  }

  lemma LoopFits(s: State, t: nat, found: Found)
    requires Sized(s) && t < |s.pc| && InLoop(s.pc[t])
    ensures LoopStep(s, t, found) == s || Fits(s, LoopStep(s, t, found), t)
  {
    if s.pc[t].Scanning? { ScanFits(s, t); }
  }

  lemma AddReadyFits(s: State, t: nat)
    requires Sized(s) && t < |s.pc| && !InLoop(s.pc[t]) && !s.pc[t].Notifying? && InRange(s.pc[t], |s.pc|)
    ensures AddReadyStep(s, t) == s || Fits(s, AddReadyStep(s, t), t)
  {
  }

  // The notify finds p not between its check and its wait, since it is made holding ThreadSleepLock.
  lemma NotifyKeepsInv(s: State, t: nat)
    requires Inv(s) && t < |s.pc| && s.pc[t].Notifying?
    ensures Inv(AddReadyStep(s, t))
  {
    var s' := AddReadyStep(s, t);
    assert s.sleepLock == Some(t);
    assert forall u: nat | u < |s.pc| && u != t :: HoldsSleep(s'.pc[u]) == HoldsSleep(s.pc[u]);
    forall p: nat | p < |s.pc|
      ensures !Committed(s'.pc[p])
    {
      assert HoldsSleep(s.pc[p]) ==> p == t;
    }
  }

  lemma RunKeepsInv(s: State, t: nat, found: Found)
    requires Inv(s) && t < |s.pc|
    ensures Inv(Step(s, Run(t, found)))
  {
    assert InRange(s.pc[t], |s.pc|);
    if InLoop(s.pc[t]) {
      LoopFits(s, t, found);
      if LoopStep(s, t, found) != s { FitsKeepsInv(s, LoopStep(s, t, found), t); }
    } else if s.pc[t].Notifying? {
      NotifyKeepsInv(s, t);
    } else {
      AddReadyFits(s, t);
      if AddReadyStep(s, t) != s { FitsKeepsInv(s, AddReadyStep(s, t), t); }
    }
  }

  lemma StepKeepsInv(s: State, a: Action)
    requires Inv(s)
    ensures Inv(Step(s, a))
  {
    match a
    case Run(t, found) => if t < |s.pc| { RunKeepsInv(s, t, found); }
    case Switched(w) =>
    case _ => if Step(s, a) != s { FitsKeepsInv(s, Step(s, a), a.t); }
  }

  lemma {:induction false} ExecKeepsInv(threads: nat, acts: seq<Action>)
    ensures Inv(Exec(Init(threads), acts))
  {
    if acts != [] {
      ExecKeepsInv(threads, acts[..|acts| - 1]);
      StepKeepsInv(Exec(Init(threads), acts[..|acts| - 1]), acts[|acts| - 1]);
    }
  }

  // ---- What every run guarantees ----

  // A pinned ready fiber is never slept through: if its thread is asleep, some other thread is still
  // between its push and its notify_all for that thread.
  lemma PinnedFiberIsNotSleptThrough(threads: nat, acts: seq<Action>, p: nat)
    requires var s := Exec(Init(threads), acts); p < |s.pc| && s.pc[p].Asleep? && s.pinned[p] != []
    ensures var s := Exec(Init(threads), acts);
      exists q: nat :: q < |s.pc| && q != p && OwesNotify(s.pc[q], p)
  {
    ExecKeepsInv(threads, acts);
    var s := Exec(Init(threads), acts);
    assert s.pinned[p] != [] ==> SomebodyOwes(s.pc, p);
  }

  // The notify it owes wakes it, and everybody else who is asleep.
  lemma NotifyWakesSleeper(threads: nat, acts: seq<Action>, q: nat, p: nat, found: Found)
    requires var s := Exec(Init(threads), acts); q < |s.pc| && p < |s.pc| && q != p && s.pc[q] == Notifying(p)
    ensures var s := Exec(Init(threads), acts); var s' := Step(s, Run(q, found));
      && s.pc[p] != AboutToWait
      && |s'.pc| == |s.pc| && forall u | 0 <= u < |s.pc| && s.pc[u].Asleep? :: s'.pc[u].Woken?
  {
    ExecKeepsInv(threads, acts);
  }

  // A thread never notifies for itself.
  lemma {:induction false} NotifiesOthersOnly(threads: nat, acts: seq<Action>, t: nat)
    requires t < threads
    ensures !NotifiesFor(Exec(Init(threads), acts).pc[t], t)
  {
    if acts != [] {
      NotifiesOthersOnly(threads, acts[..|acts| - 1], t);
      StepNotifiesOthers(Exec(Init(threads), acts[..|acts| - 1]), acts[|acts| - 1], t);
    }
  }

  predicate NotifiesFor(pc: Pc, p: nat) {
    (pc.WantNotify? || pc.Notifying?) && pc.p == p
  }

  lemma StepNotifiesOthers(s: State, a: Action, t: nat)
    requires Sized(s) && t < |s.pc| && !NotifiesFor(s.pc[t], t)
    ensures Sized(Step(s, a)) && |Step(s, a).pc| == |s.pc| && !NotifiesFor(Step(s, a).pc[t], t)
  {
    StepKeepsSized(s, a);
  }

  // How often AddReadyFiber was called in a run for fiber w, pinned to thread p.
  function Asked(s0: State, acts: seq<Action>, w: nat, p: nat): nat
    requires Sized(s0)
  {
    if acts == [] then 0
    else Asked(s0, acts[..|acts| - 1], w, p) + Asks(Exec(s0, acts[..|acts| - 1]), acts[|acts| - 1], w, p)
  }

  function Asks(s: State, a: Action, w: nat, p: nat): nat {
    if a.AddReady? && a.w == w && a.p == p && p < |s.pc| && a.t < |s.pc| && s.pc[a.t].Working? then 1 else 0
  }

  // A thread is in AddReadyFiber and has not put w on p's list yet.
  function Carries(pc: Pc, w: nat, p: nat): nat {
    if (pc.WantPush? || pc.Pushing?) && pc.w == w && pc.p == p then 1 else 0
  }

  function InFlight(pcs: seq<Pc>, w: nat, p: nat): nat {
    if pcs == [] then 0 else InFlight(pcs[..|pcs| - 1], w, p) + Carries(pcs[|pcs| - 1], w, p)
  }

  function Times(q: seq<nat>, w: nat): nat {
    multiset(q)[w]
  }

  lemma {:induction false} InFlightUpdate(pcs: seq<Pc>, t: nat, pc: Pc, w: nat, p: nat)
    requires t < |pcs|
    ensures InFlight(pcs[t := pc], w, p) + Carries(pcs[t], w, p) == InFlight(pcs, w, p) + Carries(pc, w, p)
    decreases |pcs|
  {
    var n := |pcs| - 1;
    if t == n {
      assert pcs[t := pc][..n] == pcs[..n];
    } else {
      assert pcs[t := pc][..n] == pcs[..n][t := pc];
      InFlightUpdate(pcs[..n], t, pc, w, p);
    }
  }

  lemma {:induction false} InFlightSame(pcs: seq<Pc>, pcs': seq<Pc>, w: nat, p: nat)
    requires |pcs'| == |pcs| && forall t | 0 <= t < |pcs| :: Carries(pcs'[t], w, p) == Carries(pcs[t], w, p)
    ensures InFlight(pcs', w, p) == InFlight(pcs, w, p)
    decreases |pcs|
  {
    if pcs != [] { InFlightSame(pcs[..|pcs| - 1], pcs'[..|pcs| - 1], w, p); }
  }

  lemma {:induction false} NothingInFlight(n: nat, w: nat, p: nat)
    ensures InFlight(seq(n, _ => Top), w, p) == 0
  {
    if n > 0 {
      NothingInFlight(n - 1, w, p);
      assert seq(n, _ => Top)[..n - 1] == seq(n - 1, _ => Top);
    }
  }

  // One step of thread t as far as fiber w and p's list are concerned.
  predicate CarryMove(s: State, s': State, t: nat, w: nat, p: nat, asks: nat)
    requires Sized(s) && Sized(s') && |s'.pc| == |s.pc| && t < |s.pc| && p < |s.pc|
  {
    && s'.pc == s.pc[t := s'.pc[t]]
    && Times(s'.pushed[p], w) + Carries(s'.pc[t], w, p) == Times(s.pushed[p], w) + Carries(s.pc[t], w, p) + asks
  }

  lemma LoopCarries(s: State, t: nat, found: Found, w: nat, p: nat)
    requires Sized(s) && t < |s.pc| && p < |s.pc| && InLoop(s.pc[t])
    ensures var s' := LoopStep(s, t, found);
      Sized(s') && |s'.pc| == |s.pc| && CarryMove(s, s', t, w, p, 0)
  {
  }

  lemma AddReadyCarries(s: State, t: nat, w: nat, p: nat)
    requires Sized(s) && t < |s.pc| && p < |s.pc| && InRange(s.pc[t], |s.pc|) && !InLoop(s.pc[t]) && !s.pc[t].Notifying?
    ensures var s' := AddReadyStep(s, t);
      Sized(s') && |s'.pc| == |s.pc| && CarryMove(s, s', t, w, p, 0)
  {
    if s.pc[t].Pushing? { PushedOne(s.pushed[s.pc[t].p], s.pc[t].w, w); }
  }

  lemma PushedOne(q: seq<nat>, x: nat, w: nat)
    ensures Times(q + [x], w) == Times(q, w) + (if x == w then 1 else 0)
  {
  }

  lemma CarryStep(s: State, a: Action, w: nat, p: nat)
    requires Inv(s) && p < |s.pc|
    ensures var s' := Step(s, a);
      && Sized(s') && |s'.pc| == |s.pc|
      && Times(s'.pushed[p], w) + InFlight(s'.pc, w, p) ==
           Times(s.pushed[p], w) + InFlight(s.pc, w, p) + Asks(s, a, w, p)
  {
    StepKeepsSized(s, a);
    var s' := Step(s, a);
    if a.Switched? || a.t >= |s.pc| {
    } else if a.Run? && s.pc[a.t].Notifying? {
      InFlightSame(s.pc, s'.pc, w, p);
    } else {
      assert CarryMove(s, s', a.t, w, p, Asks(s, a, w, p)) by { CarryMoves(s, a, w, p); }
      InFlightUpdate(s.pc, a.t, s'.pc[a.t], w, p);
    }
  }

  lemma CarryMoves(s: State, a: Action, w: nat, p: nat)
    requires Inv(s) && p < |s.pc| && !a.Switched? && a.t < |s.pc| && !(a.Run? && s.pc[a.t].Notifying?)
    ensures var s' := Step(s, a);
      Sized(s') && |s'.pc| == |s.pc| && CarryMove(s, s', a.t, w, p, Asks(s, a, w, p))
  {
    assert InRange(s.pc[a.t], |s.pc|);
    if a.Run? {
      if InLoop(s.pc[a.t]) { LoopCarries(s, a.t, a.found, w, p); } else { AddReadyCarries(s, a.t, w, p); }
    }
  }

  lemma {:induction false} PushedIsAsked(threads: nat, acts: seq<Action>, w: nat, p: nat)
    requires p < threads
    ensures var s := Exec(Init(threads), acts);
      Asked(Init(threads), acts, w, p) == Times(s.pushed[p], w) + InFlight(s.pc, w, p)
  {
    if acts == [] {
      NothingInFlight(threads, w, p);
    } else {
      var before, a := acts[..|acts| - 1], acts[|acts| - 1];
      PushedIsAsked(threads, before, w, p);
      ExecKeepsInv(threads, before);
      CarryStep(Exec(Init(threads), before), a, w, p);
    }
  }

  // Each fiber that AddReadyFiber was called for, pinned to thread p, is on p's list or was taken by p,
  // or the call has not got that far; as often as it was called.
  lemma PinnedFibersAreKept(threads: nat, acts: seq<Action>, w: nat, p: nat)
    requires p < threads
    ensures var s := Exec(Init(threads), acts);
      Asked(Init(threads), acts, w, p) == Times(s.taken[p], w) + Times(s.pinned[p], w) + InFlight(s.pc, w, p)
  {
    ExecKeepsInv(threads, acts);
    PushedIsAsked(threads, acts, w, p);
    var s := Exec(Init(threads), acts);
    assert multiset(s.pushed[p]) == multiset(s.taken[p]) + multiset(s.pinned[p]);
  }

  // Only thread p takes from its list, one fiber at a time: one that has been switched away from,
  // before which no other on the list has.
  lemma TakesFirstSwitched(threads: nat, acts: seq<Action>, a: Action, p: nat)
    requires p < threads
    requires var s := Exec(Init(threads), acts); Step(s, a).taken[p] != s.taken[p]
    ensures var s := Exec(Init(threads), acts);
      && a.Run? && a.t == p && s.pc[p].Scanning?
      && exists i | 0 <= i < |s.pinned[p]| ::
           && s.pinned[p][i] in s.switched && (forall j | 0 <= j < i :: s.pinned[p][j] !in s.switched)
           && Step(s, a).taken[p] == s.taken[p] + [s.pinned[p][i]]
           && Step(s, a).pinned[p] == s.pinned[p][..i] + s.pinned[p][i + 1..]
  {
    var s := Exec(Init(threads), acts);
    OnlyScansTake(s, a, p);
    assert s.pinned[p][FirstSwitched(s.pinned[p], s.switched)] in s.switched;
  }

  lemma OnlyScansTake(s: State, a: Action, p: nat)
    requires Sized(s) && p < |s.pc| && Sized(Step(s, a)) && |Step(s, a).pc| == |s.pc|
    requires Step(s, a).taken[p] != s.taken[p]
    ensures a.Run? && a.t == p && s.pc[p].Scanning? && FirstSwitched(s.pinned[p], s.switched) < |s.pinned[p]|
  {
  }

  // ---- When a thread goes to sleep ----

  // FailedQueuePopAttempts: the failed searches of thread t since it last found a task, came back from
  // the pool, or woke up.
  function Failures(s0: State, acts: seq<Action>, t: nat): nat
    requires Sized(s0)
  {
    if acts == [] then 0
    else
      var before, a := acts[..|acts| - 1], acts[|acts| - 1];
      Counted(Exec(s0, before), a, t, Failures(s0, before, t))
  }

  function Counted(s: State, a: Action, t: nat, n: nat): nat {
    if t >= |s.pc| || a.Switched? || a.t != t then n
    else
      match a
      case Run(_, Nothing) => if s.pc[t] == Searching(false) then n + 1 else if s.pc[t].Backing? then 0 else n
      case Run(_, found) => if s.pc[t].Backing? || (s.pc[t].Searching? && found.FoundTask?) then 0 else n
      case EndWork(_, reset) => if s.pc[t].Working? && reset then 0 else n
      case _ => n
  }

  // Whether thread t's last look at its list, in the worker loop, found anybody on it.
  function SawPinned(s0: State, acts: seq<Action>, t: nat): bool
    requires Sized(s0)
  {
    if acts == [] then false
    else
      var s, a := Exec(s0, acts[..|acts| - 1]), acts[|acts| - 1];
      if a.Run? && a.t == t && t < |s.pc| && s.pc[t].Scanning? then s.pinned[t] != []
      else SawPinned(s0, acts[..|acts| - 1], t)
  }

  // A search is not counted as failed if a pinned ready fiber was seen, even one that could not be taken.
  lemma {:induction false} SearchKnowsOfPinned(threads: nat, acts: seq<Action>, t: nat)
    requires t < threads
    ensures var s := Exec(Init(threads), acts);
      s.pc[t].Searching? ==> s.pc[t].ready == SawPinned(Init(threads), acts, t)
  {
    if acts != [] {
      SearchKnowsOfPinned(threads, acts[..|acts| - 1], t);
      OnlyScansSearch(Exec(Init(threads), acts[..|acts| - 1]), acts[|acts| - 1], t);
    }
  }

  lemma OnlyScansSearch(s: State, a: Action, t: nat)
    requires Sized(s) && t < |s.pc|
    ensures Sized(Step(s, a)) && |Step(s, a).pc| == |s.pc|
    ensures var pc := Step(s, a).pc[t];
      pc.Searching? ==>
        if a.Run? && a.t == t && s.pc[t].Scanning? then pc.ready == (s.pinned[t] != []) else pc == s.pc[t]
  {
    StepKeepsSized(s, a);
  }

  predicate GoingToSleep(pc: Pc) {
    pc.WantSleep? || pc.HasSleepLock? || pc.Checking? || pc.AboutToWait? || pc.Asleep? || pc.Woken? || pc.Backing?
  }

  // A thread goes to sleep exactly when five searches in a row have failed.
  lemma {:induction false} SleepsAfterFiveFailures(threads: nat, acts: seq<Action>, t: nat)
    requires t < threads
    ensures var s, n := Exec(Init(threads), acts), Failures(Init(threads), acts, t);
      n <= 5 && (GoingToSleep(s.pc[t]) <==> n == 5)
  {
    FailuresAreAttempts(threads, acts, t);
  }

  predicate AttemptsFit(s: State, t: nat, n: nat)
    requires Sized(s) && t < |s.pc|
  {
    s.attempts[t] == n <= 5 && (GoingToSleep(s.pc[t]) <==> n == 5)
  }

  lemma {:induction false} FailuresAreAttempts(threads: nat, acts: seq<Action>, t: nat)
    requires t < threads
    ensures AttemptsFit(Exec(Init(threads), acts), t, Failures(Init(threads), acts, t))
  {
    if acts != [] {
      var before, a := acts[..|acts| - 1], acts[|acts| - 1];
      FailuresAreAttempts(threads, before, t);
      CountStep(Exec(Init(threads), before), a, t, Failures(Init(threads), before, t));
    }
  }

  lemma CountStep(s: State, a: Action, t: nat, n: nat)
    requires Sized(s) && t < |s.pc| && AttemptsFit(s, t, n)
    ensures Sized(Step(s, a)) && |Step(s, a).pc| == |s.pc| && AttemptsFit(Step(s, a), t, Counted(s, a, t, n))
  {
    StepKeepsSized(s, a);
    if a.Run? && a.t < |s.pc| && InLoop(s.pc[a.t]) { CountLoop(s, a.t, a.found, t, n); }
  }

  lemma CountLoop(s: State, u: nat, found: Found, t: nat, n: nat)
    requires Sized(s) && t < |s.pc| && u < |s.pc| && InLoop(s.pc[u]) && AttemptsFit(s, t, n)
    ensures var s' := LoopStep(s, u, found);
      Sized(s') && |s'.pc| == |s.pc| && AttemptsFit(s', t, Counted(s, Run(u, found), t, n))
  {
  }

  // Both locks exclude: no two threads hold ThreadSleepLock, or the same PinnedReadyFibersLock.
  lemma LocksExclude(threads: nat, acts: seq<Action>, t: nat, u: nat, p: nat)
    requires t < threads && u < threads && p < threads
    ensures var s := Exec(Init(threads), acts);
      && (HoldsSleep(s.pc[t]) && HoldsSleep(s.pc[u]) ==> t == u)
      && (HoldsReady(s.pc[t], t) == Some(p) && HoldsReady(s.pc[u], u) == Some(p) ==> t == u)
  {
    ExecKeepsInv(threads, acts);
    var s := Exec(Init(threads), acts);
    assert HoldsReady(s.pc[t], t) == Some(p) ==> s.readyLock[p] == Some(t);
    assert HoldsReady(s.pc[u], u) == Some(p) ==> s.readyLock[p] == Some(u);
  }
}

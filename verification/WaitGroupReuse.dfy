/** When a WaitGroup's counter may be raised from zero. The documented rules (no Add after a Wait has
    been called, no reuse before every Wait has returned) do not stop a Wait from returning early: an
    Add that brought the counter to zero may still be on its way to wake the waiters. Calm is exactly
    the condition that does. */
module WaitGroupReuse {
  import opened Options
  import opened WaiterList
  import opened WaitGroupMachine

  ghost predicate NoAdds(acts: seq<Action>) {
    forall i | 0 <= i < |acts| :: !acts[i].Add?
  }

  // f's Wait is about to return although the counter is not zero.
  predicate Misreturns(s: State, f: nat) {
    Returning(s, f) && s.counter != 0
  }

  // Some schedule without further Adds makes some Wait return early.
  ghost predicate CanMisreturn(s: State) {
    exists acts, f: nat :: NoAdds(acts) && Misreturns(Exec(s, acts), f)
  }

  lemma {:induction false} ExecCons(s: State, a: Action, acts: seq<Action>)
    ensures Exec(s, [a] + acts) == Exec(Step(s, a), acts)
  {
    var all := [a] + acts;
    if acts == [] {
      assert all[..0] == [];
      assert Exec(s, all[..0]) == s;
    } else {
      ExecCons(s, a, acts[..|acts| - 1]);
      assert all[..|all| - 1] == [a] + acts[..|acts| - 1];
    }
  }

  lemma Now(s: State, f: nat)
    requires Misreturns(s, f)
    ensures CanMisreturn(s)
  {
    assert NoAdds([]) && Misreturns(Exec(s, []), f);
  }

  lemma Later(s: State, a: Action)
    requires !a.Add? && CanMisreturn(Step(s, a))
    ensures CanMisreturn(s)
  {
    var acts, f: nat :| NoAdds(acts) && Misreturns(Exec(Step(s, a), acts), f);
    ExecCons(s, a, acts);
    assert NoAdds([a] + acts) && Misreturns(Exec(s, [a] + acts), f);
  }

  // ---- Schedules that end in an early return ----

  // Enqueued and finished with the queue lock.
  ghost predicate Asleep(s: State, h: nat) {
    Sizes(s.b, |s.pc|) && h < |s.pc| && (s.pc[h].SwitchAway? || s.pc[h].Parked?)
  }

  lemma ReadyMisreturns(s: State, h: nat)
    requires s.counter != 0 && Asleep(s, h) && s.b.place[h] == Ready
    ensures CanMisreturn(s)
    decreases s.pc[h].SwitchAway?
  {
    if s.pc[h].SwitchAway? {
      ReadyMisreturns(Step(s, Run(h, true)), h);
      Later(s, Run(h, true));
    } else {
      var s1 := Step(s, CleanUp(h));
      Now(Step(s1, Resume(h)), h);
      Later(s1, Resume(h));
      Later(s, CleanUp(h));
    }
  }

  lemma HandMisreturns(s: State, u: nat, h: nat)
    requires s.counter != 0 && Asleep(s, h) && u < |s.pc| && InHand(s.pc[u]) == Some(h)
    ensures CanMisreturn(s)
    decreases s.pc[u].UnlinkNext?, s.pc[u].UnlinkTail?
  {
    var s' := Step(s, Run(u, true));
    if s.pc[u].Pass? { ReadyMisreturns(s', h); } else { HandMisreturns(s', u, h); }
    Later(s, Run(u, true));
  }

  lemma DrainMisreturns(s: State, u: nat, h: nat)
    requires s.counter != 0 && Asleep(s, h) && u < |s.pc|
    requires s.pc[u] == Drain(Some(h)) || (s.pc[u].AddLoad? && s.word.head == Some(h))
    ensures CanMisreturn(s)
    decreases s.pc[u].AddLoad?
  {
    var s' := Step(s, Run(u, true));
    if s.pc[u].AddLoad? { DrainMisreturns(s', u, h); } else { HandMisreturns(s', u, h); }
    Later(s, Run(u, true));
  }

  predicate BeforeLock(pc: Pc) {
    pc.AddFast? || pc.AddTop? || pc.AddCas? || pc.AddQueueCas?
  }

  lemma AdderMisreturns(s: State, f: nat, h: nat)
    requires s.counter != 0 && Asleep(s, h) && f < |s.pc| && BeforeLock(s.pc[f])
    requires s.word == Word(false, Some(h))
    ensures CanMisreturn(s)
    decreases !s.pc[f].AddTop?
  {
    if s.pc[f].AddTop? {
      var s1 := Step(s, Run(f, true));
      DrainMisreturns(Step(s1, Run(f, true)), f, h);
      Later(s1, Run(f, true));
      Later(s, Run(f, true));
    } else {
      AdderMisreturns(Step(s, Run(f, false)), f, h);
      Later(s, Run(f, false));
    }
  }

  // x holds the queue lock and is bound to queue itself, given that the counter is not zero.
  ghost predicate BoundToQueue(s: State, x: nat) {
    x < |s.pc| && Sizes(s.b, |s.pc|) &&
    match s.pc[x]
    case WaitCheck => s.word.head.Some? ==> Asleep(s, s.word.head.value)
    case WaitEnqueueLoad => s.word.head.Some? ==> Asleep(s, s.word.head.value)
    case InitBundle(w) => w.head.Some? ==> Asleep(s, w.head.value)
    case LinkNext(w, h) => w.head.Some? && Asleep(s, w.head.value)
    case SetTail(w, h) => w.head.Some? && Asleep(s, w.head.value)
    case StoreFull(w) => w.head.Some? && Asleep(s, w.head.value)
    case SelfTail(w) => true
    case StoreEmpty(w) => true
    case _ => false
  }

  function StepsLeft(pc: Pc): nat {
    match pc
    case WaitCheck => 6
    case WaitEnqueueLoad => 5
    case InitBundle(_) => 4
    case LinkNext(_, _) => 3
    case SetTail(_, _) => 2
    case StoreFull(_) => 1
    case SelfTail(_) => 2
    case StoreEmpty(_) => 1
    case _ => 0
  }

  lemma QueuerMisreturns(s: State, f: nat, x: nat)
    requires s.counter != 0 && f < |s.pc| && BeforeLock(s.pc[f]) && BoundToQueue(s, x)
    ensures CanMisreturn(s)
    decreases StepsLeft(s.pc[x])
  {
    var s' := Step(s, Run(x, true));
    if s.pc[x].StoreFull? {
      AdderMisreturns(s', f, s.pc[x].w.head.value);
    } else if s.pc[x].StoreEmpty? {
      AdderMisreturns(s', f, x);
    } else {
      QueuerMisreturns(s', f, x);
    }
    Later(s, Run(x, true));
  }

  lemma IdleFiberMisreturns(s: State, f: nat, g: nat)
    requires s.counter != 0 && f < |s.pc| && BeforeLock(s.pc[f]) && g < |s.pc| && s.pc[g].Idle?
    requires s.word == FREE && Sizes(s.b, |s.pc|)
    ensures CanMisreturn(s)
  {
    var s1 := Step(s, StartWait(g));
    var s2 := Step(s1, Run(g, true));
    var s3 := Step(s2, Run(g, true));
    QueuerMisreturns(Step(s3, Run(g, true)), f, g);
    Later(s3, Run(g, true));
    Later(s2, Run(g, true));
    Later(s1, Run(g, true));
    Later(s, StartWait(g));
  }

  // ---- The exact condition ----

  lemma HeadIsAsleep(s: State)
    requires Inv(s) && |s.b.queue| > 0 && (s.queueOwner.Some? ==> s.b.place[s.queueOwner.value] != Queued)
    ensures Asleep(s, s.b.queue[0])
  {
    var h := s.b.queue[0];
    assert s.b.place[s.b.queue[0]] == Queued;
    Facts(s, h);
  }

  // A Wait bound to return, after the counter has been raised.
  lemma BoundMisreturns(s: State, raised: State, f: nat)
    requires Inv(s) && f < |s.pc| && BoundToReturn(s.pc[f], s.b.place[f])
    requires raised == s.(counter := raised.counter) && raised.counter != 0
    ensures CanMisreturn(raised)
  {
    Facts(s, f);
    if s.pc[f].WaitUnlockLoad? {
      Now(Step(raised, Run(f, true)), f);
      Later(raised, Run(f, true));
    } else if s.pc[f].WaitUnlockStore? || s.pc[f].Resumed? {
      Now(raised, f);
    } else {
      assert Asleep(s, f);
      if s.b.place[f].Ready? { ReadyMisreturns(raised, f); } else { HandMisreturns(raised, s.b.place[f].u, f); }
    }
  }

  // An Add that is emptying the list.
  lemma DrainerMisreturns(s: State, raised: State, f: nat)
    requires Inv(s) && f < |s.pc| && Drains(s.pc[f]) && s.pc[f] != Drain(None)
    requires raised == s.(counter := raised.counter) && raised.counter != 0
    ensures CanMisreturn(raised)
  {
    Facts(s, f);
    if InHand(s.pc[f]).Some? {
      var h := InHand(s.pc[f]).value;
      Facts(s, h);
      HandMisreturns(raised, f, h);
    } else {
      HeadIsAsleep(s);
      DrainMisreturns(raised, f, s.b.queue[0]);
    }
  }

  // An Add that has yet to lock the queue, with nobody holding that lock.
  lemma UnlockedMisreturns(s: State, raised: State, f: nat, g: nat)
    requires Inv(s) && f < |s.pc| && BeforeLock(s.pc[f]) && g < |s.pc| && s.pc[g].Idle? && s.queueOwner == None
    requires raised == s.(counter := raised.counter) && raised.counter != 0
    ensures CanMisreturn(raised)
  {
    Facts(s, f);
    if |s.b.queue| == 0 {
      IdleFiberMisreturns(raised, f, g);
    } else {
      HeadIsAsleep(s);
      AdderMisreturns(raised, f, s.b.queue[0]);
    }
  }

  lemma QueuerIsBound(s: State, x: nat)
    requires Inv(s) && x < |s.pc| && (s.pc[x].WaitCheck? || Enqueues(s.pc[x]))
    ensures BoundToQueue(s, x)
  {
    Facts(s, x);
    if |s.b.queue| > 0 && s.b.queue[0] != x {
      var h := s.b.queue[0];
      assert s.b.place[s.b.queue[0]] == Queued;
      Facts(s, h);
    }
  }

  lemma LockedMisreturns(s: State, raised: State, f: nat, g: nat)
    requires Inv(s) && f < |s.pc| && BeforeLock(s.pc[f]) && g < |s.pc| && s.pc[g].Idle? && s.queueOwner.Some?
    requires raised == s.(counter := raised.counter) && raised.counter != 0
    ensures CanMisreturn(raised)
  {
    var x := s.queueOwner.value;
    Facts(s, x);
    if s.pc[x].AddRelease? || s.pc[x] == Drain(None) {
      IdleFiberMisreturns(Step(raised, Run(x, true)), f, g);
      Later(raised, Run(x, true));
    } else if Drains(s.pc[x]) {
      DrainerMisreturns(s, raised, x);
    } else if s.pc[x].WaitUnlockLoad? || s.pc[x].WaitUnlockStore? {
      BoundMisreturns(s, raised, x);
    } else {
      QueuerIsBound(s, x);
      QueuerMisreturns(raised, f, x);
    }
  }

  lemma NotCalmMisreturns(s: State, g: nat, delta: int)
    requires Inv(s) && s.counter == 0 && g < |s.pc| && s.pc[g].Idle? && 0 < delta <= MAX_COUNT && !Calm(s)
    ensures CanMisreturn(Step(s, Add(g, delta)))
  {
    var raised := Step(s, Add(g, delta));
    WrapInRange(delta);
    assert s.pc[g := Idle] == s.pc;
    assert raised == s.(counter := delta);
    if f :| 0 <= f < |s.pc| && BoundToReturn(s.pc[f], s.b.place[f]) {
      BoundMisreturns(s, raised, f);
    } else {
      var f :| 0 <= f < |s.pc| && Wakes(s.pc[f]);
      if !BeforeLock(s.pc[f]) { DrainerMisreturns(s, raised, f); }
      else if s.queueOwner.None? { UnlockedMisreturns(s, raised, f, g); }
      else { LockedMisreturns(s, raised, f, g); }
    }
  }

  lemma {:induction false} NoAddsKeepInv(s: State, acts: seq<Action>)
    requires Inv(s) && NoAdds(acts)
    ensures Inv(Exec(s, acts))
  {
    if acts != [] {
      NoAddsKeepInv(s, acts[..|acts| - 1]);
      StepKeepsInv(Exec(s, acts[..|acts| - 1]), acts[|acts| - 1]);
    }
  }

  lemma InvNeverMisreturns(s: State)
    requires Inv(s)
    ensures !CanMisreturn(s)
  {
    forall acts, f: nat | NoAdds(acts)
      ensures !Misreturns(Exec(s, acts), f)
    {
      NoAddsKeepInv(s, acts);
      NobodyMisreturns(Exec(s, acts), f);
    }
  }

  lemma NobodyMisreturns(s: State, f: nat)
    requires Inv(s)
    ensures !Misreturns(s, f)
  {
    if f < |s.pc| { Facts(s, f); }
  }

  // After any disciplined run that ends with the counter at zero, raising it can make some Wait
  // return early if and only if the state is not calm.
  lemma RaisingIsSafeExactlyWhenCalm(fibers: nat, acts: seq<Action>, g: nat, delta: int)
    requires Disciplined(Init(fibers), acts) && 0 < delta <= MAX_COUNT
    requires var s := Exec(Init(fibers), acts); s.counter == 0 && g < |s.pc| && s.pc[g].Idle?
    ensures var s := Exec(Init(fibers), acts);
      CanMisreturn(Step(s, Add(g, delta))) <==> !Calm(s)
  {
    ExecKeepsInv(fibers, acts);
    var s := Exec(Init(fibers), acts);
    if Calm(s) {
      StepKeepsInv(s, Add(g, delta));
      InvNeverMisreturns(Step(s, Add(g, delta)));
    } else {
      NotCalmMisreturns(s, g, delta);
    }
  }

  // What a caller can see: every Add, Done and Wait so far has returned.
  predicate AllReturned(s: State) {
    forall f | 0 <= f < |s.pc| :: s.pc[f].Idle?
  }

  // A caller that raises the counter only then keeps every later Wait from returning early.
  lemma AllReturnedIsSafe(fibers: nat, acts: seq<Action>, g: nat, delta: int)
    requires Disciplined(Init(fibers), acts) && 0 < delta <= MAX_COUNT
    requires var s := Exec(Init(fibers), acts); s.counter == 0 && g < |s.pc| && AllReturned(s)
    ensures Calm(Exec(Init(fibers), acts)) && !CanMisreturn(Step(Exec(Init(fibers), acts), Add(g, delta)))
  {
    ExecKeepsInv(fibers, acts);
    var s := Exec(Init(fibers), acts);
    forall f | 0 <= f < |s.pc|
      ensures !Wakes(s.pc[f]) && !BoundToReturn(s.pc[f], s.b.place[f])
    {
      Facts(s, f);
    }
    RaisingIsSafeExactlyWhenCalm(fibers, acts, g, delta);
  }

  // ---- The documented rules are not enough ----

  // "Add() must not be called after any thread has called Wait()", read as strictly as it can be.
  ghost predicate FollowsDocumentation(acts: seq<Action>) {
    forall i, j | 0 <= i < j < |acts| && acts[i].StartWait? :: !acts[j].Add?
  }

  // Fiber 0 adds one; fiber 1's Done brings the counter to zero and stalls; fiber 0 adds one more,
  // waits and parks. Fiber 1 then wakes it with the counter still at one.
  function Opening(): seq<Action> { [Add(0, 1), Add(1, -1), Add(0, 1), StartWait(0)] }

  function LockingQueue(): seq<Action> { [Run(0, true), Run(0, true), Run(0, true), Run(0, true), Run(0, true)] }

  function Parking(): seq<Action> { [Run(0, true), Run(0, true), Run(0, true), Run(0, true), CleanUp(0)] }

  function Waking(): seq<Action> { [Run(1, true), Run(1, true), Run(1, true), Run(1, true), Run(1, true)] }

  function Returns(): seq<Action> { [Run(1, true), Run(1, true), Run(1, true), Resume(0)] }

  function EarlyReturn(): seq<Action> {
    Opening() + LockingQueue() + Parking() + Waking() + Returns()
  }

  // Two fibers, of which only fiber 0 ever waits.
  function Two(word: Word, pc0: Pc, pc1: Pc, tail0: Link, switched0: bool, q: seq<nat>, place0: Place, o: Link): State {
    State(1, word, [pc0, pc1], Bundles([None, None], [tail0, None], [switched0, false], q, [place0, Awake]), o)
  }

  // Running a schedule from its first step on.
  function Play(s: State, acts: seq<Action>): State
    decreases |acts|
  {
    if acts == [] then s else Play(Step(s, acts[0]), acts[1..])
  }

  lemma {:induction false} PlayIsExec(s: State, acts: seq<Action>)
    ensures Play(s, acts) == Exec(s, acts)
    decreases |acts|
  {
    if acts != [] {
      PlayIsExec(Step(s, acts[0]), acts[1..]);
      ExecCons(s, acts[0], acts[1..]);
      assert [acts[0]] + acts[1..] == acts;
    }
  }

  lemma {:induction false} PlayAppend(s: State, a: seq<Action>, b: seq<Action>)
    ensures Play(s, a + b) == Play(Play(s, a), b)
    decreases |a|
  {
    if a == [] {
      assert a + b == b;
    } else {
      PlayAppend(Step(s, a[0]), a[1..], b);
      assert (a + b)[1..] == a[1..] + b;
    }
  }

  lemma Play2(s: State, a: Action, b: Action)
    ensures Play(s, [a, b]) == Step(Step(s, a), b)
  {
    assert [a, b][1..] == [b];
    assert [b][1..] == [];
    assert Play(Step(s, a), [b]) == Play(Step(Step(s, a), b), []);
  }

  lemma Play4(s: State, a: Action, b: Action, c: Action, d: Action)
    ensures Play(s, [a, b, c, d]) == Step(Step(Step(Step(s, a), b), c), d)
  {
    assert [a, b, c, d] == [a, b] + [c, d];
    PlayAppend(s, [a, b], [c, d]);
    Play2(s, a, b);
    Play2(Step(Step(s, a), b), c, d);
  }

  lemma Play5(s: State, a: Action, b: Action, c: Action, d: Action, e: Action)
    ensures Play(s, [a, b, c, d, e]) == Step(Step(Step(Step(Step(s, a), b), c), d), e)
  {
    assert [a, b, c, d, e][1..] == [b, c, d, e];
    Play4(Step(s, a), b, c, d, e);
  }

  lemma OpeningEnds()
    ensures Play(Init(2), Opening()) == Two(FREE, WaitTop, AddFast, None, false, [], Awake, None)
  {
    var s := Init(2);
    Play4(s, Add(0, 1), Add(1, -1), Add(0, 1), StartWait(0));
    FirstCycle(s);
    SecondCycle(s.(pc := [Idle, AddFast]));
  }

  lemma FirstCycle(s: State)
    requires s == Init(2)
    ensures Step(Step(s, Add(0, 1)), Add(1, -1)) == s.(pc := [Idle, AddFast])
  {
    assert s.pc == [Idle, Idle];
    assert Step(s, Add(0, 1)) == s.(counter := 1);
  }

  lemma SecondCycle(s: State)
    requires s == Init(2).(pc := [Idle, AddFast])
    ensures Step(Step(s, Add(0, 1)), StartWait(0)) == Two(FREE, WaitTop, AddFast, None, false, [], Awake, None)
  {
    assert s.b == Bundles([None, None], [None, None], [false, false], [], [Awake, Awake]);
    assert Step(s, Add(0, 1)) == s.(counter := 1);
  }

  lemma LockingQueueEnds()
    ensures Play(Two(FREE, WaitTop, AddFast, None, false, [], Awake, None), LockingQueue())
         == Two(Word(true, None), InitBundle(Word(true, None)), AddFast, None, false, [], Awake, Some(0))
  {
    var s, r := Two(FREE, WaitTop, AddFast, None, false, [], Awake, None), Run(0, true);
    Play5(s, r, r, r, r, r);
    LoadsWord(s);
    TakesLock(s.(pc := [WaitCas(FREE), AddFast]));
    ChecksCounter(Two(Word(true, None), WaitCheck, AddFast, None, false, [], Awake, Some(0)));
  }

  lemma LoadsWord(s: State)
    requires s == Two(FREE, WaitTop, AddFast, None, false, [], Awake, None)
    ensures Step(Step(s, Run(0, true)), Run(0, true)) == s.(pc := [WaitCas(FREE), AddFast])
  {
    assert Step(s, Run(0, true)) == s.(pc := [WaitLoad, AddFast]);
  }

  lemma TakesLock(s: State)
    requires s == Two(FREE, WaitCas(FREE), AddFast, None, false, [], Awake, None)
    ensures Step(s, Run(0, true)) == Two(Word(true, None), WaitCheck, AddFast, None, false, [], Awake, Some(0))
  {
  }

  lemma ChecksCounter(s: State)
    requires s == Two(Word(true, None), WaitCheck, AddFast, None, false, [], Awake, Some(0))
    ensures Step(Step(s, Run(0, true)), Run(0, true)) == s.(pc := [InitBundle(Word(true, None)), AddFast])
  {
    assert Step(s, Run(0, true)) == s.(pc := [WaitEnqueueLoad, AddFast]);
  }

  lemma ParkingEnds()
    ensures Play(Two(Word(true, None), InitBundle(Word(true, None)), AddFast, None, false, [], Awake, Some(0)),
                 Parking())
         == Two(Word(false, Some(0)), Parked, AddFast, Some(0), true, [0], Queued, None)
  {
    var w, r := Word(true, None), Run(0, true);
    var s := Two(w, InitBundle(w), AddFast, None, false, [], Awake, Some(0));
    Play5(s, r, r, r, r, CleanUp(0));
    Founds(s);
    Publishes(Two(w, StoreEmpty(w), AddFast, Some(0), false, [0], Queued, Some(0)));
    Switches(Two(Word(false, Some(0)), SwitchAway, AddFast, Some(0), false, [0], Queued, None));
  }

  lemma Founds(s: State)
    requires s == Two(Word(true, None), InitBundle(Word(true, None)), AddFast, None, false, [], Awake, Some(0))
    ensures Step(Step(s, Run(0, true)), Run(0, true))
         == Two(Word(true, None), StoreEmpty(Word(true, None)), AddFast, Some(0), false, [0], Queued, Some(0))
  {
    assert Step(s, Run(0, true)) == s.(pc := [SelfTail(Word(true, None)), AddFast]);
  }

  lemma Publishes(s: State)
    requires s == Two(Word(true, None), StoreEmpty(Word(true, None)), AddFast, Some(0), false, [0], Queued, Some(0))
    ensures Step(s, Run(0, true)) == Two(Word(false, Some(0)), SwitchAway, AddFast, Some(0), false, [0], Queued, None)
  {
  }

  lemma Switches(s: State)
    requires s == Two(Word(false, Some(0)), SwitchAway, AddFast, Some(0), false, [0], Queued, None)
    ensures Step(Step(s, Run(0, true)), CleanUp(0)) ==
      Two(Word(false, Some(0)), Parked, AddFast, Some(0), true, [0], Queued, None)
  {
    assert Step(s, Run(0, true)) == s.(pc := [Parked, AddFast]);
  }

  lemma WakingEnds()
    ensures Play(Two(Word(false, Some(0)), Parked, AddFast, Some(0), true, [0], Queued, None), Waking())
         == Two(Word(true, Some(0)), Parked, UnlinkNext(0, None), Some(0), true, [], Hands(1), Some(1))
  {
    var r := Run(1, true);
    var s := Two(Word(false, Some(0)), Parked, AddFast, Some(0), true, [0], Queued, None);
    Play5(s, r, r, r, r, r);
    assert Step(s, r) == s.(pc := [Parked, AddTop]);
    assert Step(Step(s, r), r) == s.(pc := [Parked, AddQueueCas(s.word)]);
    var t := Two(Word(true, Some(0)), Parked, AddLoad, Some(0), true, [0], Queued, Some(1));
    assert Step(Step(Step(s, r), r), r) == t;
    assert Step(t, r) == t.(pc := [Parked, Drain(Some(0))]);
  }

  lemma ReturnsEnds()
    ensures Misreturns(Play(Two(Word(true, Some(0)), Parked, UnlinkNext(0, None), Some(0), true, [], Hands(1),
                                Some(1)), Returns()), 0)
  {
    var w, r := Word(true, Some(0)), Run(1, true);
    var s := Two(w, Parked, UnlinkNext(0, None), Some(0), true, [], Hands(1), Some(1));
    Play4(s, r, r, r, Resume(0));
    assert Step(s, r) == s.(pc := [Parked, UnlinkTail(0, None)]);
    assert Step(Step(s, r), r) == Two(w, Parked, Pass(0, None), None, true, [], Hands(1), Some(1));
    assert Step(Step(Step(s, r), r), r) == Two(w, Parked, Drain(None), None, true, [], Ready, Some(1));
  }

  lemma EarlyReturnFollowsDocumentation()
    ensures FollowsDocumentation(EarlyReturn())
  {
    var rest := LockingQueue() + Parking() + Waking() + Returns();
    assert EarlyReturn() == Opening() + rest;
    assert forall a | a in LockingQueue() :: !a.Add?;
    assert forall a | a in Parking() :: !a.Add?;
    assert forall a | a in Waking() :: !a.Add?;
    assert forall a | a in Returns() :: !a.Add?;
    forall j | 4 <= j < |EarlyReturn()|
      ensures !EarlyReturn()[j].Add?
    {
      assert EarlyReturn()[j] in rest;
    }
    forall j | 0 <= j < 4
      ensures EarlyReturn()[j] == Opening()[j]
    {
    }
  }

  // A run that keeps the documented rules, yet ends with a Wait returning at counter one.
  lemma DocumentedRulesAllowEarlyReturn()
    ensures FollowsDocumentation(EarlyReturn())
    ensures Misreturns(Exec(Init(2), EarlyReturn()), 0)
  {
    EarlyReturnFollowsDocumentation();
    EarlyReturnPlays();
    PlayIsExec(Init(2), EarlyReturn());
  }

  lemma EarlyReturnPlays()
    ensures Misreturns(Play(Init(2), EarlyReturn()), 0)
  {
    var s, p1, p2 := Init(2), Opening(), LockingQueue();
    OpeningEnds();
    LockingQueueEnds();
    ParkingEnds();
    WakingEnds();
    ReturnsEnds();
    PlayAppend(s, p1, p2);
    PlayAppend(s, p1 + p2, Parking());
    PlayAppend(s, p1 + p2 + Parking(), Waking());
    PlayAppend(s, p1 + p2 + Parking() + Waking(), Returns());
  }
}

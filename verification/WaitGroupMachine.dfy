/** WaitGroup under every interleaving of any number of fibers calling Add, Done and Wait. One step
    is one load, store or read-modify-write of m_counter or m_word, or one access to a bundle on the
    waiter list; a weak compare-exchange may fail even when the word matches. Parking, CleanUp and
    Resume are as in FibtexMachine.

    queueOwner is history, read by no step's control flow; so are queue and place in Bundles, but for
    Ready, which stands for the scheduler having been handed the bundle. */
module WaitGroupMachine {
  import opened Options
  import opened WaiterList

  // The two things packed into m_word.
  datatype Word = Word(queueLocked: bool, head: Link)

  const FREE := Word(false, None)
  const MAX_COUNT: int := 0x7FFF_FFFF

  datatype Pc =
    | Idle
    // Add, after bringing the counter to zero
    | AddFast
    | AddTop
    | AddCas
    | AddQueueCas(w: Word)
    | AddRelease
    | AddLoad
    | Drain(head: Link)
    | UnlinkNext(h: nat, rest: Link)
    | UnlinkTail(h: nat, rest: Link)
    | Pass(h: nat, rest: Link)
    // Wait
    | WaitTop
    | WaitLoad
    | WaitCas(w: Word)
    | WaitCheck
    | WaitUnlockLoad
    | WaitUnlockStore(w: Word)
    | WaitEnqueueLoad
    | InitBundle(w: Word)
    | LinkNext(w: Word, h: nat)
    | SetTail(w: Word, h: nat)
    | StoreFull(w: Word)
    | SelfTail(w: Word)
    | StoreEmpty(w: Word)
    | SwitchAway
    | Parked
    | Resumed

  datatype State = State(counter: int, word: Word, pc: seq<Pc>, b: Bundles, queueOwner: Link)

  datatype Action =
    | Add(f: nat, delta: int)
    | StartWait(f: nat)
    | Run(f: nat, ok: bool)
    | CleanUp(f: nat)
    | Resume(f: nat)

  function Init(fibers: nat): State {
    State(0, FREE, seq(fibers, _ => Idle), NoBundles(fibers), None)
  }

  function Goto(s: State, f: nat, pc: Pc): State
    requires f < |s.pc|
  {
    s.(pc := s.pc[f := pc])
  }

  // int32_t arithmetic wraps.
  function Wrap32(x: int): int {
    (x + 0x8000_0000) % 0x1_0000_0000 - 0x8000_0000
  }

  function TakeLock(s: State, f: nat, pc: Pc): State
    requires f < |s.pc|
  {
    Goto(s.(word := s.word.(queueLocked := true), queueOwner := Some(f)), f, pc)
  }

  function Store(s: State, f: nat, w: Word, pc: Pc): State
    requires f < |s.pc|
  {
    Goto(s.(word := w, queueOwner := None), f, pc)
  }

  // ---- Add, once it has brought the counter to zero ----

  function AddStep(s: State, f: nat, ok: bool): State
    requires f < |s.pc|
  {
    match s.pc[f]
    case AddFast => if ok && s.word == FREE then TakeLock(s, f, AddRelease) else Goto(s, f, AddTop)
    case AddTop =>
      Goto(s, f, if s.word == FREE then AddCas else if s.word.queueLocked then AddTop else AddQueueCas(s.word))
    case AddCas => if ok && s.word == FREE then TakeLock(s, f, AddRelease) else Goto(s, f, AddTop)
    case AddQueueCas(w) => if ok && s.word == w then TakeLock(s, f, AddLoad) else Goto(s, f, AddTop)
    case AddRelease => Store(s, f, FREE, Idle)
    case _ => s
  }

  // Resuming all waiters, holding the queue lock.
  function DrainStep(s: State, f: nat): State
    requires f < |s.pc|
  {
    match s.pc[f]
    case AddLoad => Goto(s, f, Drain(s.word.head))
    case Drain(head) =>
      if head.None? then Store(s, f, FREE, Idle)
      else Goto(s.(b := TakeFront(s.b, head.value, f)), f, UnlinkNext(head.value, LinkAt(s.b.next, head.value)))
    case UnlinkNext(h, rest) => Goto(s.(b := ClearNext(s.b, h)), f, UnlinkTail(h, rest))
    case UnlinkTail(h, rest) => Goto(s.(b := ClearTail(s.b, h)), f, Pass(h, rest))
    case Pass(h, rest) => Goto(s.(b := HandOver(s.b, h)), f, Drain(rest))
    case _ => s
  }

  // ---- Wait ----

  function WaitStep(s: State, f: nat, ok: bool): State
    requires f < |s.pc|
  {
    match s.pc[f]
    case WaitTop => Goto(s, f, if s.counter == 0 then Idle else WaitLoad)
    case WaitLoad => Goto(s, f, if s.word.queueLocked then WaitTop else WaitCas(s.word))
    case WaitCas(w) => if ok && s.word == w then TakeLock(s, f, WaitCheck) else Goto(s, f, WaitTop)
    case WaitCheck => Goto(s, f, if s.counter == 0 then WaitUnlockLoad else WaitEnqueueLoad)
    case WaitUnlockLoad => Goto(s, f, WaitUnlockStore(s.word))
    case WaitUnlockStore(w) => Store(s, f, w.(queueLocked := false), Idle)
    case Resumed => Goto(s, f, Idle)
    case _ => s
  }

  function EnqueueStep(s: State, f: nat): State
    requires f < |s.pc|
  {
    match s.pc[f]
    case WaitEnqueueLoad => Goto(s, f, InitBundle(s.word))
    case InitBundle(w) =>
      Goto(s.(b := Fresh(s.b, f)), f, if w.head.Some? then LinkNext(w, w.head.value) else SelfTail(w))
    case LinkNext(w, h) => Goto(s.(b := LinkBehind(s.b, h, f)), f, SetTail(w, h))
    case SetTail(w, h) => Goto(s.(b := PointTail(s.b, h, Some(f))), f, StoreFull(w))
    case StoreFull(w) => Store(s, f, w.(queueLocked := false), SwitchAway)
    case SelfTail(w) => Goto(s.(b := StartQueue(s.b, f)), f, StoreEmpty(w))
    case StoreEmpty(w) => Store(s, f, w.(queueLocked := false, head := Some(f)), SwitchAway)
    case SwitchAway => Goto(s, f, Parked)
    case _ => s
  }

  // ---- All steps ----

  predicate Enqueues(pc: Pc) {
    pc.WaitEnqueueLoad? || pc.InitBundle? || pc.LinkNext? || pc.SetTail? || pc.StoreFull? || pc.SelfTail?
    || pc.StoreEmpty?
  }

  predicate Drains(pc: Pc) {
    pc.AddLoad? || pc.Drain? || InHand(pc).Some?
  }

  // The bundle a fiber has taken off the list and not yet passed on.
  function InHand(pc: Pc): Link {
    match pc
    case UnlinkNext(h, _) => Some(h)
    case UnlinkTail(h, _) => Some(h)
    case Pass(h, _) => Some(h)
    case _ => None
  }

  predicate InAdd(pc: Pc) {
    pc.AddFast? || pc.AddTop? || pc.AddCas? || pc.AddQueueCas? || pc.AddRelease?
  }

  function RunStep(s: State, f: nat, ok: bool): State
    requires f < |s.pc|
  {
    if InAdd(s.pc[f]) then AddStep(s, f, ok)
    else if Drains(s.pc[f]) then DrainStep(s, f)
    else if Enqueues(s.pc[f]) || s.pc[f].SwitchAway? then EnqueueStep(s, f)
    else WaitStep(s, f, ok)
  }

  function Step(s: State, a: Action): State {
    if a.f >= |s.pc| then s else
    match a
    case Add(f, delta) =>
      if !s.pc[f].Idle? then s else
      var count := Wrap32(s.counter + delta);
      Goto(s.(counter := count), f, if count > 0 then Idle else AddFast)
    case StartWait(f) => if s.pc[f].Idle? then Goto(s, f, WaitTop) else s
    case Run(f, ok) => RunStep(s, f, ok)
    case CleanUp(f) => if s.pc[f].Parked? then s.(b := MarkSwitched(s.b, f)) else s
    case Resume(f) =>
      if s.pc[f].Parked? && f < |s.b.place| && s.b.place[f].Ready? && f < |s.b.switched| && s.b.switched[f]
      then Goto(s.(b := Wake(s.b, f)), f, Resumed) else s
  }

  function Exec(s: State, acts: seq<Action>): State {
    if acts == [] then s else Step(Exec(s, acts[..|acts| - 1]), acts[|acts| - 1])
  }

  // ---- What callers must respect ----

  // Bringing the counter to zero, this fiber has not yet locked the queue or not yet emptied it.
  predicate Wakes(pc: Pc) {
    pc.AddFast? || pc.AddTop? || pc.AddCas? || pc.AddQueueCas? || pc.AddLoad?
    || (pc.Drain? && pc.head.Some?) || InHand(pc).Some?
  }

  // A Wait that is already bound to return.
  predicate BoundToReturn(pc: Pc, p: Place) {
    pc.WaitUnlockLoad? || pc.WaitUnlockStore? || pc.Resumed? || p.Hands? || p.Ready?
  }

  // Nothing is left of an earlier zero crossing: no Add is still waking its waiters, and every Wait
  // it released has returned.
  ghost predicate Calm(s: State) {
    && (forall f | 0 <= f < |s.pc| :: !Wakes(s.pc[f]))
    && (forall f | 0 <= f < |s.pc| && f < |s.b.place| :: !BoundToReturn(s.pc[f], s.b.place[f]))
  }

  // The counter stays in range, and is raised from zero only when all is calm. In particular a
  // counter that reaches zero once, after one AddTasks, satisfies this.
  ghost predicate Allowed(s: State, a: Action) {
    a.Add? && a.f < |s.pc| && s.pc[a.f].Idle? ==>
      && 0 <= s.counter + a.delta <= MAX_COUNT
      && (s.counter == 0 && a.delta > 0 ==> Calm(s))
  }

  ghost predicate Disciplined(s: State, acts: seq<Action>) {
    acts == [] ||
    (Disciplined(s, acts[..|acts| - 1]) && Allowed(Exec(s, acts[..|acts| - 1]), acts[|acts| - 1]))
  }

  // ---- The invariant ----

  predicate HoldsQueue(pc: Pc) {
    pc.AddRelease? || Drains(pc) || pc.WaitCheck? || pc.WaitUnlockLoad? || pc.WaitUnlockStore? || Enqueues(pc)
  }

  // A bundle may be on the list, taken off it or ready only while its fiber is here.
  predicate Waits(pc: Pc) {
    pc.SetTail? || pc.StoreFull? || pc.StoreEmpty? || pc.SwitchAway? || pc.Parked?
  }

  ghost predicate LockOk(s: State) {
    && (forall f | 0 <= f < |s.pc| :: HoldsQueue(s.pc[f]) <==> s.queueOwner == Some(f))
    && (s.word.queueLocked <==> s.queueOwner.Some?)
    && (s.queueOwner.Some? ==> s.queueOwner.value < |s.pc|)
  }

  // What the fiber holding the queue lock is doing.
  function QueuePc(s: State): Pc {
    if s.queueOwner.Some? && s.queueOwner.value < |s.pc| then s.pc[s.queueOwner.value] else Idle
  }

  predicate Emptying(pc: Pc) {
    pc.Drain? || InHand(pc).Some?
  }

  function TailMode(busy: Pc): TailState {
    if busy.SetTail? then Lags else if Emptying(busy) then Unused else Right
  }

  ghost predicate QueueOk(b: Bundles, n: nat, word: Word, busy: Pc) {
    && ListOk(b, n)
    && TailOk(b, TailMode(busy))
    && (!Emptying(busy) ==> word.head == (if busy.StoreEmpty? then None else Head(b.queue)))
  }

  ghost predicate PlacesOk(b: Bundles, pcs: seq<Pc>)
    requires Sizes(b, |pcs|)
  {
    && (forall f | 0 <= f < |pcs| :: b.place[f] != Awake ==> Waits(pcs[f]))
    && (forall f | 0 <= f < |pcs| ::
          b.place[f].Hands? ==> b.place[f].u < |pcs| && InHand(pcs[b.place[f].u]) == Some(f))
  }

  // What fiber f of n may rely on when it is at pc.
  ghost predicate PcOk(word: Word, b: Bundles, n: nat, f: nat, pc: Pc)
    requires Sizes(b, n) && f < n
  {
    match pc
    case AddQueueCas(w) => !w.queueLocked && w.head.Some?
    case AddRelease => word.head == None
    case AddLoad => word.head.Some?
    case Drain(head) => head == Head(b.queue)
    case UnlinkNext(h, rest) => h < n && b.place[h] == Hands(f) && rest == Head(b.queue)
    case UnlinkTail(h, rest) => h < n && b.place[h] == Hands(f) && rest == Head(b.queue) && b.next[h] == None
    case Pass(h, rest) =>
      h < n && b.place[h] == Hands(f) && rest == Head(b.queue) && b.next[h] == None && b.tail[h] == None
    case WaitCas(w) => !w.queueLocked
    case WaitUnlockStore(w) => w == word
    case InitBundle(w) => w == word && b.place[f] == Awake
    case LinkNext(w, h) =>
      w == word && word.head == Some(h) && b.next[f] == None && !b.switched[f] && b.place[f] == Awake
    case SetTail(w, h) =>
      w == word && word.head == Some(h) && b.place[f] == Queued && Last(b.queue) == Some(f) && !b.switched[f]
    case StoreFull(w) =>
      w == word && word.head.Some? && word.head != Some(f) && b.place[f] == Queued && !b.switched[f]
    case SelfTail(w) => w == word && word.head == None && b.next[f] == None && !b.switched[f] && b.place[f] == Awake
    case StoreEmpty(w) => w == word && b.place[f] == Queued && b.queue == [f] && !b.switched[f]
    case SwitchAway => b.place[f] != Awake && !b.switched[f]
    case Parked => b.place[f] != Awake
    case Resumed => b.next[f] == None && b.tail[f] == None
    case _ => true
  }

  // Whoever is waking waiters, or is bound to return, saw a zero that still stands.
  ghost predicate CounterOk(counter: int, b: Bundles, pcs: seq<Pc>)
    requires Sizes(b, |pcs|)
  {
    && 0 <= counter <= MAX_COUNT
    && (counter != 0 ==> forall f | 0 <= f < |pcs| :: !Wakes(pcs[f]) && !BoundToReturn(pcs[f], b.place[f]))
  }

  // At zero, if anyone is queued or about to be, some Add is still going to wake them.
  ghost predicate StrandsNobody(s: State) {
    s.counter == 0 && (|s.b.queue| > 0 || Enqueues(QueuePc(s))) ==> exists z | 0 <= z < |s.pc| :: Wakes(s.pc[z])
  }

  ghost predicate PcsOk(word: Word, b: Bundles, pcs: seq<Pc>)
    requires Sizes(b, |pcs|)
  {
    forall f {:trigger PcOk(word, b, |pcs|, f, pcs[f])} | 0 <= f < |pcs| :: PcOk(word, b, |pcs|, f, pcs[f])
  }

  ghost predicate Inv(s: State) {
    && LockOk(s)
    && QueueOk(s.b, |s.pc|, s.word, QueuePc(s))
    && PlacesOk(s.b, s.pc)
    && PcsOk(s.word, s.b, s.pc)
    && CounterOk(s.counter, s.b, s.pc)
    && StrandsNobody(s)
  }

  // ---- How one fiber's step carries each part of the invariant over ----

  lemma LockMove(s: State, s': State, f: nat)
    requires LockOk(s) && f < |s.pc| && |s'.pc| == |s.pc| && s'.pc == s.pc[f := s'.pc[f]]
    requires HoldsQueue(s'.pc[f]) ==> s.queueOwner == None || s.queueOwner == Some(f)
    requires s'.queueOwner == if HoldsQueue(s'.pc[f]) then Some(f)
                              else if HoldsQueue(s.pc[f]) then None else s.queueOwner
    requires s'.word.queueLocked <==> s'.queueOwner.Some?
    ensures LockOk(s')
    ensures HoldsQueue(s'.pc[f]) ==> QueuePc(s') == s'.pc[f]
    ensures !HoldsQueue(s'.pc[f]) && !HoldsQueue(s.pc[f]) ==> QueuePc(s') == QueuePc(s)
    ensures !HoldsQueue(s'.pc[f]) && HoldsQueue(s.pc[f]) ==> QueuePc(s') == Idle
  {
  }

  lemma PlacesMove(b: Bundles, b': Bundles, pcs: seq<Pc>, f: nat, pc: Pc)
    requires Sizes(b, |pcs|) && Sizes(b', |pcs|) && PlacesOk(b, pcs) && f < |pcs| && InHand(pcs[f]) == None
    requires forall y | 0 <= y < |pcs| && y != f :: b'.place[y] == b.place[y]
    requires !b'.place[f].Hands? && (b'.place[f] != Awake ==> Waits(pc))
    ensures PlacesOk(b', pcs[f := pc])
  {
  }

  // What the other fibers rely on survives a step of f, made while no other fiber holds the queue
  // lock, that leaves the bundles of running fibers alone.
  lemma OthersKeep(s: State, word: Word, b: Bundles, f: nat)
    requires LockOk(s) && Sizes(s.b, |s.pc|) && PlacesOk(s.b, s.pc) && PcsOk(s.word, s.b, s.pc) && f < |s.pc|
      && Sizes(b, |s.pc|)
    requires s.queueOwner == None || s.queueOwner == Some(f)
    requires forall y | 0 <= y < |s.pc| && y != f ::
      (b.place[y] == Awake <==> s.b.place[y] == Awake) && b.switched[y] == s.b.switched[y]
    requires forall y | 0 <= y < |s.pc| && y != f && s.b.place[y] == Awake ::
      b.next[y] == s.b.next[y] && b.tail[y] == s.b.tail[y]
    ensures forall g | 0 <= g < |s.pc| && g != f :: PcOk(word, b, |s.pc|, g, s.pc[g])
  {
    forall g | 0 <= g < |s.pc| && g != f
      ensures PcOk(word, b, |s.pc|, g, s.pc[g])
    {
      assert !HoldsQueue(s.pc[g]);
      assert PcOk(s.word, s.b, |s.pc|, g, s.pc[g]);
    }
  }

  lemma CounterMove(counter: int, b: Bundles, b': Bundles, pcs: seq<Pc>, f: nat, pc: Pc)
    requires Sizes(b, |pcs|) && Sizes(b', |pcs|) && CounterOk(counter, b, pcs) && f < |pcs|
    requires counter != 0 ==> !Wakes(pc) && !BoundToReturn(pc, b'.place[f])
    requires counter != 0 ==> forall y | 0 <= y < |pcs| && y != f :: b'.place[y] == b.place[y]
    ensures CounterOk(counter, b', pcs[f := pc])
  {
  }

  lemma StrandsMove(s: State, s': State, f: nat)
    requires StrandsNobody(s) && f < |s.pc| && |s'.pc| == |s.pc| && s'.pc == s.pc[f := s'.pc[f]]
    requires s'.counter == s.counter
    requires s'.counter == 0 && (|s'.b.queue| > 0 || Enqueues(QueuePc(s'))) ==>
      Wakes(s'.pc[f]) || (!Wakes(s.pc[f]) && (|s.b.queue| > 0 || Enqueues(QueuePc(s))))
    ensures StrandsNobody(s')
  {
    if s'.counter == 0 && (|s'.b.queue| > 0 || Enqueues(QueuePc(s'))) && !Wakes(s'.pc[f]) {
      var z :| 0 <= z < |s.pc| && Wakes(s.pc[z]);
      assert s'.pc[z] == s.pc[z];
    }
  }

  lemma Facts(s: State, f: nat)
    requires Inv(s) && f < |s.pc|
    ensures QueueOk(s.b, |s.pc|, s.word, QueuePc(s)) && PcOk(s.word, s.b, |s.pc|, f, s.pc[f])
    ensures !Waits(s.pc[f]) ==> s.b.place[f] == Awake
    ensures HoldsQueue(s.pc[f]) ==> s.word.queueLocked && s.queueOwner == Some(f) && QueuePc(s) == s.pc[f]
    ensures !s.word.queueLocked ==> s.queueOwner == None && QueuePc(s) == Idle
    ensures CounterOk(s.counter, s.b, s.pc)
    ensures s.counter != 0 ==> !Wakes(s.pc[f]) && !BoundToReturn(s.pc[f], s.b.place[f])
  {
  }

  // ---- Steps that touch neither bundles nor the word ----

  // Neither holding the queue lock nor waiting.
  predicate Free(pc: Pc) {
    !HoldsQueue(pc) && !Waits(pc)
  }

  lemma MoveFree(s: State, f: nat, pc: Pc)
    requires Inv(s) && f < |s.pc| && Free(s.pc[f]) && Free(pc)
    requires PcOk(s.word, s.b, |s.pc|, f, pc)
    requires s.counter != 0 ==> !Wakes(pc) && !BoundToReturn(pc, Awake)
    requires Wakes(s.pc[f]) ==> Wakes(pc)
    ensures Inv(Goto(s, f, pc))
  {
    var s' := Goto(s, f, pc);
    Facts(s, f);
    LockMove(s, s', f);
    PlacesMove(s.b, s.b, s.pc, f, pc);
    CounterMove(s.counter, s.b, s.b, s.pc, f, pc);
    StrandsMove(s, s', f);
  }

  lemma TakeLockKeepsInv(s: State, f: nat, pc: Pc)
    requires Inv(s) && f < |s.pc| && !s.word.queueLocked && Free(s.pc[f])
    requires pc.WaitCheck? || (pc.AddRelease? && s.word == FREE) || (pc.AddLoad? && s.word.head.Some?)
    requires s.counter != 0 ==> !Wakes(pc)
    requires pc.WaitCheck? ==> !Wakes(s.pc[f])
    ensures Inv(TakeLock(s, f, pc))
  {
    var s' := TakeLock(s, f, pc);
    Facts(s, f);
    assert PcsOk(s'.word, s.b, s'.pc) by { OthersKeep(s, s'.word, s.b, f); }
    LockMove(s, s', f);
    PlacesMove(s.b, s.b, s.pc, f, pc);
    CounterMove(s.counter, s.b, s.b, s.pc, f, pc);
    StrandsMove(s, s', f);
  }

  // A step of the waking Add that takes the queue lock or moves on.
  ghost predicate AddOutcome(s: State, f: nat, s': State)
    requires f < |s.pc| && f < |s'.pc|
  {
    var pc := s'.pc[f];
    if pc.AddRelease? then s' == TakeLock(s, f, pc) && s.word == FREE
    else if pc.AddLoad? then s' == TakeLock(s, f, pc) && !s.word.queueLocked && s.word.head.Some?
    else
      s' == Goto(s, f, pc) && (pc.AddTop? || pc.AddCas? || (pc.AddQueueCas? && !pc.w.queueLocked && pc.w.head.Some?))
  }

  lemma AddCases(s: State, f: nat, ok: bool)
    requires f < |s.pc| && InAdd(s.pc[f]) && !s.pc[f].AddRelease?
    requires s.pc[f].AddQueueCas? ==> !s.pc[f].w.queueLocked && s.pc[f].w.head.Some?
    ensures AddOutcome(s, f, AddStep(s, f, ok))
  {
  }

  lemma AddKeepsInv(s: State, f: nat, ok: bool)
    requires Inv(s) && f < |s.pc| && InAdd(s.pc[f]) && !s.pc[f].AddRelease?
    ensures Inv(AddStep(s, f, ok))
  {
    var s' := AddStep(s, f, ok);
    assert s.pc[f].AddQueueCas? ==> !s.pc[f].w.queueLocked && s.pc[f].w.head.Some? by { Facts(s, f); }
    AddCases(s, f, ok);
    if s'.pc[f].AddRelease? || s'.pc[f].AddLoad? { TakeLockKeepsInv(s, f, s'.pc[f]); }
    else { AddMovesOn(s, f, s'.pc[f]); }
  }

  lemma AddMovesOn(s: State, f: nat, pc: Pc)
    requires Inv(s) && f < |s.pc| && InAdd(s.pc[f]) && !s.pc[f].AddRelease?
    requires pc.AddTop? || pc.AddCas? || (pc.AddQueueCas? && !pc.w.queueLocked && pc.w.head.Some?)
    ensures Inv(Goto(s, f, pc))
  {
    AddFacts(s, f);
    AddPcOk(s.word, s.b, |s.pc|, f, pc);
    MoveFree(s, f, pc);
  }

  lemma AddFacts(s: State, f: nat)
    requires Inv(s) && f < |s.pc| && InAdd(s.pc[f]) && !s.pc[f].AddRelease?
    ensures Free(s.pc[f]) && Wakes(s.pc[f]) && s.counter == 0
  {
    Facts(s, f);
  }

  lemma AddPcOk(word: Word, b: Bundles, n: nat, f: nat, pc: Pc)
    requires Sizes(b, n) && f < n
    requires pc.AddTop? || pc.AddCas? || (pc.AddQueueCas? && !pc.w.queueLocked && pc.w.head.Some?)
    ensures PcOk(word, b, n, f, pc) && Free(pc) && Wakes(pc)
  {
  }

  lemma WaitKeepsInv(s: State, f: nat, ok: bool)
    requires Inv(s) && f < |s.pc| && (s.pc[f].WaitTop? || s.pc[f].WaitLoad? || s.pc[f].Resumed?)
    ensures Inv(WaitStep(s, f, ok))
  {
    var s' := WaitStep(s, f, ok);
    WaitCases(s, f, ok);
    MoveFree(s, f, s'.pc[f]);
  }

  lemma WaitCases(s: State, f: nat, ok: bool)
    requires f < |s.pc| && (s.pc[f].WaitTop? || s.pc[f].WaitLoad? || s.pc[f].Resumed?)
    ensures var pc := WaitStep(s, f, ok).pc[f];
      && WaitStep(s, f, ok) == Goto(s, f, pc) && !Wakes(s.pc[f]) && !Wakes(pc) && Free(s.pc[f]) && Free(pc)
      && (pc.Idle? || pc.WaitLoad? || pc.WaitTop? || (pc.WaitCas? && !pc.w.queueLocked)) && !BoundToReturn(pc, Awake)
  {
  }

  lemma WaitCasKeepsInv(s: State, f: nat, ok: bool)
    requires Inv(s) && f < |s.pc| && s.pc[f].WaitCas?
    ensures Inv(WaitStep(s, f, ok))
  {
    Facts(s, f);
    if ok && s.word == s.pc[f].w { TakeLockKeepsInv(s, f, WaitCheck); } else { MoveFree(s, f, WaitTop); }
  }

  // ---- Steps made while holding the queue lock ----

  ghost predicate SafeStep(word: Word, b: Bundles, b': Bundles, n: nat, f: nat, pc: Pc, pc': Pc)
    requires Sizes(b, n) && f < n
  {
    && HoldsQueue(pc')
    && QueueOk(b', n, word, pc') && PcOk(word, b', n, f, pc')
    && (forall y | 0 <= y < n && y != f :: b'.place[y] == b.place[y] && b'.switched[y] == b.switched[y])
    && (forall y | 0 <= y < n && y != f && b.place[y] == Awake :: b'.next[y] == b.next[y] && b'.tail[y] == b.tail[y])
    && !b'.place[f].Hands? && !b'.place[f].Ready? && (b'.place[f] != Awake ==> Waits(pc'))
  }

  // A step of a Wait that holds the queue lock and keeps it.
  lemma QueueStep(s: State, f: nat, b: Bundles, pc: Pc)
    requires Inv(s) && f < |s.pc| && HoldsQueue(s.pc[f]) && !Drains(s.pc[f])
    requires SafeStep(s.word, s.b, b, |s.pc|, f, s.pc[f], pc)
    requires s.counter != 0 ==> !Wakes(pc) && !BoundToReturn(pc, Awake)
    requires Enqueues(pc) ==> (Enqueues(s.pc[f]) || s.counter != 0)
    requires !Wakes(s.pc[f]) && (|b.queue| == |s.b.queue| || Enqueues(s.pc[f]))
    ensures Inv(Goto(s.(b := b), f, pc))
  {
    var s' := Goto(s.(b := b), f, pc);
    Facts(s, f);
    assert PcsOk(s.word, b, s'.pc) by { OthersKeep(s, s.word, b, f); }
    LockMove(s, s', f);
    PlacesMove(s.b, b, s.pc, f, pc);
    CounterMove(s.counter, s.b, b, s.pc, f, pc);
    StrandsMove(s, s', f);
  }

  lemma CheckKeepsInv(s: State, f: nat)
    requires Inv(s) && f < |s.pc| && (s.pc[f].WaitCheck? || s.pc[f].WaitUnlockLoad?)
    ensures Inv(WaitStep(s, f, true))
  {
    Facts(s, f);
    QueueStep(s, f, s.b, if s.pc[f].WaitUnlockLoad? then WaitUnlockStore(s.word)
                         else if s.counter == 0 then WaitUnlockLoad else WaitEnqueueLoad);
  }

  lemma EnqueueLoadKeepsInv(s: State, f: nat)
    requires Inv(s) && f < |s.pc| && s.pc[f].WaitEnqueueLoad?
    ensures Inv(EnqueueStep(s, f))
  {
    Facts(s, f);
    QueueStep(s, f, s.b, InitBundle(s.word));
  }

  lemma InitBundleKeepsInv(s: State, f: nat)
    requires Inv(s) && f < |s.pc| && s.pc[f].InitBundle?
    ensures Inv(EnqueueStep(s, f))
  {
    Facts(s, f);
    var w := s.pc[f].w;
    FreshKeeps(s.b, |s.pc|, f, Right);
    QueueStep(s, f, Fresh(s.b, f), if w.head.Some? then LinkNext(w, w.head.value) else SelfTail(w));
  }

  lemma SafeLink(word: Word, b: Bundles, b': Bundles, n: nat, f: nat, pc: Pc)
    requires f < n && pc.LinkNext? && Sizes(b, n) && PcOk(word, b, n, f, pc)
    requires ListOk(b', n) && TailOk(b', Lags) && Head(b'.queue) == Some(pc.h) && b'.queue == b.queue + [f]
    requires b'.tail == b.tail && b'.switched == b.switched && b'.place == b.place[f := Queued]
    requires forall y | 0 <= y < n && b.place[y] != Queued :: b'.next[y] == b.next[y]
    ensures SafeStep(word, b, b', n, f, pc, SetTail(pc.w, pc.h))
  {
  }

  lemma LinkNextKeepsInv(s: State, f: nat)
    requires Inv(s) && f < |s.pc| && s.pc[f].LinkNext?
    ensures Inv(EnqueueStep(s, f))
  {
    Facts(s, f);
    var b, h := LinkBehind(s.b, s.pc[f].h, f), s.pc[f].h;
    LinkBehindKeeps(s.b, |s.pc|, h, f);
    LinkBehindFrame(s.b, |s.pc|, h, f);
    SafeLink(s.word, s.b, b, |s.pc|, f, s.pc[f]);
    QueueStep(s, f, b, SetTail(s.pc[f].w, h));
  }

  lemma HeadIsListed(b: Bundles, n: nat, h: nat)
    requires ListOk(b, n) && Head(b.queue) == Some(h)
    ensures h < n && b.place[h] == Queued
  {
    assert b.place[b.queue[0]] == Queued;
  }

  lemma SetTailKeepsInv(s: State, f: nat)
    requires Inv(s) && f < |s.pc| && s.pc[f].SetTail?
    ensures Inv(EnqueueStep(s, f))
  {
    var pc := s.pc[f];
    Facts(s, f);
    PointTailKeeps(s.b, |s.pc|, pc.h, f);
    HeadIsListed(s.b, |s.pc|, pc.h);
    assert s.b.queue[0] == pc.h && s.b.queue[|s.b.queue| - 1] == f && |s.b.queue| >= 2;
    QueueStep(s, f, PointTail(s.b, pc.h, Some(f)), StoreFull(pc.w));
  }

  lemma SafeSelf(word: Word, b: Bundles, b': Bundles, n: nat, f: nat, pc: Pc)
    requires f < n && pc.SelfTail? && Sizes(b, n) && PcOk(word, b, n, f, pc)
    requires ListOk(b', n) && TailOk(b', Right) && b'.queue == [f]
    requires b'.next == b.next && b'.switched == b.switched && b'.place == b.place[f := Queued]
    requires forall y | 0 <= y < n && y != f :: b'.tail[y] == b.tail[y]
    ensures SafeStep(word, b, b', n, f, pc, StoreEmpty(pc.w))
  {
  }

  lemma SelfTailKeepsInv(s: State, f: nat)
    requires Inv(s) && f < |s.pc| && s.pc[f].SelfTail?
    ensures Inv(EnqueueStep(s, f))
  {
    var b := StartQueue(s.b, f);
    Facts(s, f);
    StartQueueKeeps(s.b, |s.pc|, f);
    SafeSelf(s.word, s.b, b, |s.pc|, f, s.pc[f]);
    QueueStep(s, f, b, StoreEmpty(s.pc[f].w));
  }

  // ---- Releasing the queue lock ----

  lemma ReleaseKeepsInv(s: State, f: nat, w: Word, pc: Pc)
    requires Inv(s) && f < |s.pc| && HoldsQueue(s.pc[f]) && !w.queueLocked && w.head == Head(s.b.queue)
    requires TailOk(s.b, Right) && !Wakes(s.pc[f]) && InHand(s.pc[f]) == None
    requires (pc.Idle? && s.b.place[f] == Awake) || (pc.SwitchAway? && PcOk(w, s.b, |s.pc|, f, SwitchAway))
    ensures Inv(Store(s, f, w, pc))
  {
    var s' := Store(s, f, w, pc);
    Facts(s, f);
    assert PcsOk(w, s.b, s'.pc) by { OthersKeep(s, w, s.b, f); }
    LockMove(s, s', f);
    assert !s.b.place[f].Hands?;
    PlacesMove(s.b, s.b, s.pc, f, pc);
    CounterMove(s.counter, s.b, s.b, s.pc, f, pc);
    StrandsMove(s, s', f);
  }

  lemma StoreKeepsInv(s: State, f: nat)
    requires Inv(s) && f < |s.pc|
    requires s.pc[f].StoreFull? || s.pc[f].StoreEmpty? || s.pc[f].WaitUnlockStore? || s.pc[f].AddRelease?
    ensures Inv(RunStep(s, f, true))
  {
    var s' := RunStep(s, f, true);
    Facts(s, f);
    ReleaseKeepsInv(s, f, s'.word, s'.pc[f]);
  }

  // ---- Waking all waiters ----

  // All that DrainMove asks of a step that the emptying Add makes on bundles.
  ghost predicate SafeDrain(word: Word, b: Bundles, b': Bundles, pcs: seq<Pc>, f: nat, pc: Pc)
    requires Sizes(b, |pcs|) && f < |pcs|
  {
    && Sizes(b', |pcs|)
    && QueueOk(b', |pcs|, word, pc) && PcOk(word, b', |pcs|, f, pc) && PlacesOk(b', pcs[f := pc])
    && (forall y | 0 <= y < |pcs| && y != f ::
          (b'.place[y] == Awake <==> b.place[y] == Awake) && b'.switched[y] == b.switched[y])
    && (forall y | 0 <= y < |pcs| && y != f && b.place[y] == Awake ::
          b'.next[y] == b.next[y] && b'.tail[y] == b.tail[y])
  }

  // A step of the Add that is emptying the list.
  lemma DrainMove(s: State, f: nat, b: Bundles, pc: Pc)
    requires Inv(s) && f < |s.pc| && Drains(s.pc[f]) && Emptying(pc)
    requires SafeDrain(s.word, s.b, b, s.pc, f, pc)
    requires s.counter == 0 && (|b.queue| > 0 ==> Wakes(pc))
    ensures Inv(Goto(s.(b := b), f, pc))
  {
    var s' := Goto(s.(b := b), f, pc);
    Facts(s, f);
    assert PcsOk(s.word, b, s'.pc) by { OthersKeep(s, s.word, b, f); }
    LockMove(s, s', f);
    StrandsMove(s, s', f);
  }

  lemma DrainLoadKeepsInv(s: State, f: nat)
    requires Inv(s) && f < |s.pc| && s.pc[f].AddLoad?
    ensures Inv(DrainStep(s, f))
  {
    Facts(s, f);
    PlacesMove(s.b, s.b, s.pc, f, Drain(s.word.head));
    DrainMove(s, f, s.b, Drain(s.word.head));
  }

  lemma TakePlaces(b: Bundles, pcs: seq<Pc>, f: nat, h: nat, rest: Link)
    requires Sizes(b, |pcs|) && PlacesOk(b, pcs) && f < |pcs| && InHand(pcs[f]) == None
    requires h < |pcs| && b.place[h] == Queued && b.place[f] == Awake
    ensures PlacesOk(TakeFront(b, h, f), pcs[f := UnlinkNext(h, rest)])
  {
  }

  lemma TakeIsSafe(word: Word, b: Bundles, pcs: seq<Pc>, f: nat, h: nat)
    requires f < |pcs| && ListOk(b, |pcs|) && PlacesOk(b, pcs) && Head(b.queue) == Some(h)
    requires InHand(pcs[f]) == None && b.place[f] == Awake
    ensures h < |pcs| && SafeDrain(word, b, TakeFront(b, h, f), pcs, f, UnlinkNext(h, b.next[h]))
    ensures b.queue == [h] + b.queue[1..]
  {
    HeadIsListed(b, |pcs|, h);
    TakeFits(word, b, |pcs|, f, h);
    TakePlaces(b, pcs, f, h, b.next[h]);
  }

  lemma TakeFits(word: Word, b: Bundles, n: nat, f: nat, h: nat)
    requires f < n && h < n && h != f && ListOk(b, n) && Head(b.queue) == Some(h)
    ensures var b', pc := TakeFront(b, h, f), UnlinkNext(h, b.next[h]);
      QueueOk(b', n, word, pc) && PcOk(word, b', n, f, pc) && b.queue == [h] + b.queue[1..]
  {
    TakeFrontKeeps(b, n, h, f);
  }

  lemma TakeKeepsInv(s: State, f: nat)
    requires Inv(s) && f < |s.pc| && s.pc[f].Drain? && s.pc[f].head.Some?
    ensures Inv(DrainStep(s, f))
    ensures s.b.queue == [s.pc[f].head.value] + DrainStep(s, f).b.queue
  {
    var h := s.pc[f].head.value;
    Facts(s, f);
    TakeIsSafe(s.word, s.b, s.pc, f, h);
    DrainMove(s, f, TakeFront(s.b, h, f), UnlinkNext(h, s.b.next[h]));
  }

  lemma HandPlaces(b: Bundles, pcs: seq<Pc>, f: nat, h: nat, b': Bundles, pc: Pc)
    requires Sizes(b, |pcs|) && Sizes(b', |pcs|) && PlacesOk(b, pcs) && f < |pcs|
    requires InHand(pcs[f]) == Some(h) && h < |pcs| && b.place[h] == Hands(f) && b.place[f] == Awake
    requires (InHand(pc) == Some(h) && b'.place == b.place) || (pc.Drain? && b'.place == b.place[h := Ready])
    ensures PlacesOk(b', pcs[f := pc])
  {
  }

  lemma UnlinkIsSafe(word: Word, b: Bundles, pcs: seq<Pc>, f: nat, h: nat, rest: Link)
    requires f < |pcs| && ListOk(b, |pcs|) && PlacesOk(b, pcs) && h < |pcs| && b.place[h] == Hands(f)
    requires InHand(pcs[f]) == Some(h) && b.place[f] == Awake && rest == Head(b.queue)
    ensures SafeDrain(word, b, ClearNext(b, h), pcs, f, UnlinkTail(h, rest))
    ensures b.next[h] == None ==> SafeDrain(word, b, ClearTail(b, h), pcs, f, Pass(h, rest))
  {
    ClearKeeps(b, |pcs|, h, Unused);
    HandPlaces(b, pcs, f, h, ClearNext(b, h), UnlinkTail(h, rest));
    HandPlaces(b, pcs, f, h, ClearTail(b, h), Pass(h, rest));
  }

  lemma UnlinkKeepsInv(s: State, f: nat)
    requires Inv(s) && f < |s.pc| && (s.pc[f].UnlinkNext? || s.pc[f].UnlinkTail?)
    ensures Inv(DrainStep(s, f))
  {
    var h, rest := s.pc[f].h, s.pc[f].rest;
    Facts(s, f);
    UnlinkIsSafe(s.word, s.b, s.pc, f, h, rest);
    if s.pc[f].UnlinkNext? { DrainMove(s, f, ClearNext(s.b, h), UnlinkTail(h, rest)); }
    else { DrainMove(s, f, ClearTail(s.b, h), Pass(h, rest)); }
  }

  lemma PassKeepsInv(s: State, f: nat)
    requires Inv(s) && f < |s.pc| && s.pc[f].Pass?
    ensures Inv(DrainStep(s, f))
  {
    var h, rest, n := s.pc[f].h, s.pc[f].rest, |s.pc|;
    Facts(s, f);
    PlaceKeeps(s.b, n, h, Unused);
    HandPlaces(s.b, s.pc, f, h, HandOver(s.b, h), Drain(rest));
    DrainMove(s, f, HandOver(s.b, h), Drain(rest));
  }

  // ---- Switching away and back ----

  lemma SwitchAwayKeepsInv(s: State, f: nat)
    requires Inv(s) && f < |s.pc| && s.pc[f].SwitchAway?
    ensures Inv(EnqueueStep(s, f))
  {
    var s' := EnqueueStep(s, f);
    Facts(s, f);
    LockMove(s, s', f);
    SwitchPlaces(s.b, s.pc, f);
    CounterMove(s.counter, s.b, s.b, s.pc, f, Parked);
    StrandsMove(s, s', f);
  }

  lemma SwitchPlaces(b: Bundles, pcs: seq<Pc>, f: nat)
    requires Sizes(b, |pcs|) && PlacesOk(b, pcs) && f < |pcs| && InHand(pcs[f]) == None
    ensures PlacesOk(b, pcs[f := Parked])
  {
  }

  lemma CleanUpKeepsInv(s: State, f: nat)
    requires Inv(s) && f < |s.pc| && s.pc[f].Parked?
    ensures Inv(s.(b := MarkSwitched(s.b, f)))
  {
    var b := MarkSwitched(s.b, f);
    MarkSwitchedKeeps(s.b, |s.pc|, f, TailMode(QueuePc(s)));
    forall g | 0 <= g < |s.pc|
      ensures PcOk(s.word, b, |s.pc|, g, s.pc[g])
    {
      assert PcOk(s.word, s.b, |s.pc|, g, s.pc[g]);
    }
  }

  lemma WakeKeepsOthers(s: State, f: nat)
    requires Inv(s) && f < |s.pc| && s.b.place[f].Ready?
    ensures forall g | 0 <= g < |s.pc| && g != f :: PcOk(s.word, Wake(s.b, f), |s.pc|, g, s.pc[g])
  {
    forall g | 0 <= g < |s.pc| && g != f
      ensures PcOk(s.word, Wake(s.b, f), |s.pc|, g, s.pc[g])
    {
      assert PcOk(s.word, s.b, |s.pc|, g, s.pc[g]);
    }
  }

  lemma WakeKeepsPcs(s: State, f: nat)
    requires Inv(s) && f < |s.pc| && s.b.place[f].Ready?
    ensures PcsOk(s.word, Wake(s.b, f), s.pc[f := Resumed])
  {
    WakeKeepsOthers(s, f);
  }

  lemma WakeKeepsList(s: State, f: nat)
    requires Inv(s) && f < |s.pc| && s.b.place[f].Ready?
    ensures ListOk(Wake(s.b, f), |s.pc|) && TailOk(Wake(s.b, f), TailMode(QueuePc(s)))
  {
    PlaceKeeps(s.b, |s.pc|, f, TailMode(QueuePc(s)));
  }

  lemma ResumeKeepsInv(s: State, f: nat)
    requires Inv(s) && f < |s.pc| && s.pc[f].Parked? && s.b.place[f].Ready?
    ensures Inv(Goto(s.(b := Wake(s.b, f)), f, Resumed))
  {
    var b := Wake(s.b, f);
    var s' := Goto(s.(b := b), f, Resumed);
    Facts(s, f);
    LockMove(s, s', f);
    WakeKeepsList(s, f);
    WakeKeepsPcs(s, f);
    PlacesMove(s.b, b, s.pc, f, Resumed);
    CounterMove(s.counter, s.b, b, s.pc, f, Resumed);
    StrandsMove(s, s', f);
  }

  // ---- Starting an Add ----

  lemma WrapInRange(x: int)
    requires 0 <= x <= MAX_COUNT
    ensures Wrap32(x) == x
  {
  }

  lemma StartAddKeepsInv(s: State, f: nat, delta: int)
    requires Inv(s) && f < |s.pc| && s.pc[f].Idle? && Allowed(s, Add(f, delta))
    ensures Inv(Step(s, Add(f, delta)))
  {
    var s' := Step(s, Add(f, delta));
    WrapInRange(s.counter + delta);
    Facts(s, f);
    if s'.counter == 0 {
      CountdownKeepsInv(s, f);
    } else {
      assert s' == s.(counter := s'.counter, pc := s.pc[f := Idle]) && s.pc[f := Idle] == s.pc;
      assert s' == s.(counter := s'.counter);
    }
  }

  lemma CountdownKeepsInv(s: State, f: nat)
    requires Inv(s) && f < |s.pc| && s.pc[f].Idle?
    ensures Inv(Goto(s.(counter := 0), f, AddFast))
  {
    var s' := Goto(s.(counter := 0), f, AddFast);
    Facts(s, f);
    LockMove(s, s', f);
    PlacesMove(s.b, s.b, s.pc, f, AddFast);
    assert Wakes(s'.pc[f]);
  }

  // ---- Every allowed step keeps the invariant ----

  lemma WaitRunKeepsInv(s: State, f: nat, ok: bool)
    requires Inv(s) && f < |s.pc|
    requires s.pc[f].WaitTop? || s.pc[f].WaitLoad? || s.pc[f].WaitCas? || s.pc[f].WaitCheck? || s.pc[f].WaitUnlockLoad?
      || s.pc[f].Resumed?
    ensures Inv(WaitStep(s, f, ok))
  {
    match s.pc[f]
    case WaitCas(_) => WaitCasKeepsInv(s, f, ok);
    case WaitCheck => CheckKeepsInv(s, f);
    case WaitUnlockLoad => CheckKeepsInv(s, f);
    case _ => WaitKeepsInv(s, f, ok);
  }

  lemma EnqueueRunKeepsInv(s: State, f: nat)
    requires Inv(s) && f < |s.pc|
    requires s.pc[f].WaitEnqueueLoad? || s.pc[f].InitBundle? || s.pc[f].LinkNext? || s.pc[f].SetTail?
      || s.pc[f].SelfTail?
      || s.pc[f].SwitchAway?
    ensures Inv(EnqueueStep(s, f))
  {
    match s.pc[f]
    case WaitEnqueueLoad => EnqueueLoadKeepsInv(s, f);
    case InitBundle(_) => InitBundleKeepsInv(s, f);
    case LinkNext(_, _) => LinkNextKeepsInv(s, f);
    case SetTail(_, _) => SetTailKeepsInv(s, f);
    case SelfTail(_) => SelfTailKeepsInv(s, f);
    case SwitchAway => SwitchAwayKeepsInv(s, f);
  }

  lemma RunKeepsInv(s: State, f: nat, ok: bool)
    requires Inv(s) && f < |s.pc|
    ensures Inv(RunStep(s, f, ok))
  {
    var pc := s.pc[f];
    if pc.Idle? || pc.Parked? {
      assert RunStep(s, f, ok) == s;
    } else if pc.AddRelease? || pc.StoreFull? || pc.StoreEmpty? || pc.WaitUnlockStore? {
      StoreKeepsInv(s, f);
    } else if InAdd(pc) {
      AddKeepsInv(s, f, ok);
    } else if Drains(pc) {
      DrainRunKeepsInv(s, f);
    } else if Enqueues(pc) || pc.SwitchAway? {
      EnqueueRunKeepsInv(s, f);
    } else {
      WaitRunKeepsInv(s, f, ok);
    }
  }

  lemma DrainEndsKeepsInv(s: State, f: nat)
    requires Inv(s) && f < |s.pc| && s.pc[f] == Drain(None)
    ensures Inv(DrainStep(s, f))
  {
    Facts(s, f);
    assert Head(s.b.queue) == None && TailOk(s.b, Right);
    ReleaseKeepsInv(s, f, FREE, Idle);
  }

  lemma DrainRunKeepsInv(s: State, f: nat)
    requires Inv(s) && f < |s.pc| && Drains(s.pc[f])
    ensures Inv(DrainStep(s, f))
  {
    match s.pc[f]
    case AddLoad => DrainLoadKeepsInv(s, f);
    case Drain(head) =>
      if head.Some? { TakeKeepsInv(s, f); } else { DrainEndsKeepsInv(s, f); }
    case UnlinkNext(_, _) => UnlinkKeepsInv(s, f);
    case UnlinkTail(_, _) => UnlinkKeepsInv(s, f);
    case Pass(_, _) => PassKeepsInv(s, f);
  }

  lemma StepKeepsInv(s: State, a: Action)
    requires Inv(s) && Allowed(s, a)
    ensures Inv(Step(s, a))
  {
    if a.f < |s.pc| {
      match a
      case Add(f, delta) => if s.pc[f].Idle? { StartAddKeepsInv(s, f, delta); }
      case StartWait(f) => if s.pc[f].Idle? { MoveFree(s, f, WaitTop); }
      case Run(f, ok) => RunKeepsInv(s, f, ok);
      case CleanUp(f) => if s.pc[f].Parked? { CleanUpKeepsInv(s, f); }
      case Resume(f) => if s.pc[f].Parked? && s.b.place[f].Ready? { ResumeKeepsInv(s, f); }
    }
  }

  lemma InitInv(fibers: nat)
    ensures Inv(Init(fibers))
  {
  }

  lemma {:induction false} ExecKeepsInv(fibers: nat, acts: seq<Action>)
    requires Disciplined(Init(fibers), acts)
    ensures Inv(Exec(Init(fibers), acts))
  {
    if acts == [] {
      InitInv(fibers);
    } else {
      var before := acts[..|acts| - 1];
      ExecKeepsInv(fibers, before);
      StepKeepsInv(Exec(Init(fibers), before), acts[|acts| - 1]);
    }
  }

  // ---- What every disciplined run guarantees ----

  predicate InWait(pc: Pc) {
    pc.WaitTop? || pc.WaitLoad? || pc.WaitCas? || pc.WaitCheck? || pc.WaitUnlockLoad? || pc.WaitUnlockStore?
    || Enqueues(pc) || pc.SwitchAway? || pc.Parked? || pc.Resumed?
  }

  // The fiber's next step ends its Wait.
  predicate Returning(s: State, f: nat) {
    f < |s.pc| && (s.pc[f].Resumed? || s.pc[f].WaitUnlockStore? || (s.pc[f].WaitTop? && s.counter == 0))
  }

  lemma WaitEndsOnlyHere(s: State, a: Action, f: nat)
    requires f < |s.pc| && InWait(s.pc[f]) && f < |Step(s, a).pc| && !InWait(Step(s, a).pc[f])
    ensures Returning(s, f) && a.Run? && a.f == f && Step(s, a).pc[f].Idle? && Step(s, a).counter == s.counter
  {
    StepIsOwn(s, a, f);
    assert a.Run?;
    RunEndsWait(s, f, a.ok);
  }

  lemma StepIsOwn(s: State, a: Action, f: nat)
    requires f < |s.pc|
    ensures |Step(s, a).pc| == |s.pc| && (a.f != f ==> Step(s, a).pc[f] == s.pc[f])
  {
  }

  lemma RunEndsWait(s: State, f: nat, ok: bool)
    requires f < |s.pc| && InWait(s.pc[f]) && !InWait(RunStep(s, f, ok).pc[f])
    ensures Returning(s, f) && RunStep(s, f, ok).pc[f].Idle? && RunStep(s, f, ok).counter == s.counter
  {
  }

  // Wait returns only while the counter is zero.
  lemma WaitReturnsAtZero(fibers: nat, acts: seq<Action>, a: Action, f: nat)
    requires Disciplined(Init(fibers), acts)
    requires var s := Exec(Init(fibers), acts);
      f < |s.pc| && InWait(s.pc[f]) && f < |Step(s, a).pc| && !InWait(Step(s, a).pc[f])
    ensures Exec(Init(fibers), acts).counter == 0
    ensures Step(Exec(Init(fibers), acts), a).counter == 0
  {
    ExecKeepsInv(fibers, acts);
    var s := Exec(Init(fibers), acts);
    WaitEndsOnlyHere(s, a, f);
    Facts(s, f);
  }

  // The assertions in the source, each where its fiber is about to evaluate it.
  ghost predicate AssertionsHold(s: State, f: nat)
    requires f < |s.pc| && Sizes(s.b, |s.pc|)
  {
    match s.pc[f]
    case AddLoad => s.word.queueLocked && s.word.head.Some?
    case StoreFull(w) => w.head.Some? && w.queueLocked
    case StoreEmpty(w) => w.head.None? && w.queueLocked
    case Resumed => s.b.next[f] == None && s.b.tail[f] == None
    case _ => true
  }

  lemma EveryAssertionHolds(fibers: nat, acts: seq<Action>, f: nat)
    requires Disciplined(Init(fibers), acts) && f < |Exec(Init(fibers), acts).pc|
    ensures var s := Exec(Init(fibers), acts);
      && s.counter >= 0 && Sizes(s.b, |s.pc|) && AssertionsHold(s, f)
  {
    ExecKeepsInv(fibers, acts);
    Facts(Exec(Init(fibers), acts), f);
  }

  // At zero, with nobody queued and nobody about to be.
  predicate Settled(s: State) {
    s.counter == 0 && s.b.queue == [] && !Enqueues(QueuePc(s))
  }

  predicate InZeroingAdd(pc: Pc) {
    InAdd(pc) || Drains(pc)
  }

  // Once an Add that brought the counter to zero returns, if it is still zero then nobody is queued,
  // nobody is about to be, and every fiber that has parked is ready.
  lemma ZeroingAddStrandsNobody(fibers: nat, acts: seq<Action>, a: Action, f: nat)
    requires Disciplined(Init(fibers), acts)
    requires var s := Exec(Init(fibers), acts);
      f < |s.pc| && InZeroingAdd(s.pc[f]) && f < |Step(s, a).pc| && !InZeroingAdd(Step(s, a).pc[f])
    ensures var s' := Step(Exec(Init(fibers), acts), a);
      s'.counter == 0 ==>
        && Settled(s')
        && Sizes(s'.b, |s'.pc|)
        && forall g | 0 <= g < |s'.pc| && (s'.pc[g].SwitchAway? || s'.pc[g].Parked?) :: s'.b.place[g] == Ready
  {
    ExecKeepsInv(fibers, acts);
    var s := Exec(Init(fibers), acts);
    AddEndsOnlyHere(s, a, f);
    AddEnds(s, f);
  }

  lemma AddEndsOnlyHere(s: State, a: Action, f: nat)
    requires f < |s.pc| && InZeroingAdd(s.pc[f]) && f < |Step(s, a).pc| && !InZeroingAdd(Step(s, a).pc[f])
    ensures a.Run? && a.f == f && (s.pc[f].AddRelease? || s.pc[f] == Drain(None))
    ensures Step(s, a) == Store(s, f, FREE, Idle)
  {
  }

  lemma AddEnds(s: State, f: nat)
    requires Inv(s) && f < |s.pc| && (s.pc[f].AddRelease? || s.pc[f] == Drain(None))
    ensures var s' := Store(s, f, FREE, Idle);
      && s'.b.queue == [] && QueuePc(s') == Idle && Sizes(s'.b, |s'.pc|)
      && forall g | 0 <= g < |s'.pc| && (s'.pc[g].SwitchAway? || s'.pc[g].Parked?) :: s'.b.place[g] == Ready
  {
    Facts(s, f);
    forall g | 0 <= g < |s.pc| && g != f && (s.pc[g].SwitchAway? || s.pc[g].Parked?)
      ensures s.b.place[g] == Ready
    {
      Facts(s, g);
      if s.b.place[g].Hands? { Facts(s, s.b.place[g].u); }
    }
  }

  // Settled lasts until the counter is raised: no later Wait of the cycle queues itself.
  lemma SettledLasts(fibers: nat, acts: seq<Action>, a: Action)
    requires Disciplined(Init(fibers), acts) && Settled(Exec(Init(fibers), acts))
    ensures var s := Exec(Init(fibers), acts);
      Step(s, a).counter == 0 ==> Settled(Step(s, a))
  {
    ExecKeepsInv(fibers, acts);
    var s := Exec(Init(fibers), acts);
    if a.f < |s.pc| {
      Facts(s, a.f);
      if Step(s, a).counter == 0 { SettledStep(s, a); }
    }
  }

  lemma SettledStep(s: State, a: Action)
    requires Settled(s) && a.f < |s.pc| && (HoldsQueue(s.pc[a.f]) <==> s.queueOwner == Some(a.f))
    requires s.queueOwner.Some? ==> s.queueOwner.value < |s.pc|
    requires Step(s, a).counter == 0
    ensures Settled(Step(s, a))
  {
  }

  // A fiber that has switched away is on the list, with exactly one Add, or ready and with none.
  lemma ParkedFiberIsSomewhere(fibers: nat, acts: seq<Action>, f: nat)
    requires Disciplined(Init(fibers), acts)
    requires var s := Exec(Init(fibers), acts); f < |s.pc| && s.pc[f].Parked?
    ensures var s := Exec(Init(fibers), acts);
      && Sizes(s.b, |s.pc|)
      && match s.b.place[f] {
           case Awake => false
           case Queued => f in s.b.queue
           case Hands(u) => u < |s.pc| && forall v | 0 <= v < |s.pc| :: InHand(s.pc[v]) == Some(f) <==> v == u
           case Ready => forall v | 0 <= v < |s.pc| :: InHand(s.pc[v]) != Some(f)
         }
  {
    ExecKeepsInv(fibers, acts);
    var s := Exec(Init(fibers), acts);
    Facts(s, f);
    forall v | 0 <= v < |s.pc| && InHand(s.pc[v]) == Some(f)
      ensures s.b.place[f] == Hands(v)
    {
      Facts(s, v);
    }
  }

  // In one wait a bundle is passed to AddReadyFiber once: only the one Add that has it in hand passes
  // it, and from then on it stays ready until its fiber resumes.
  lemma HandedOverOnce(fibers: nat, acts: seq<Action>, a: Action, h: nat)
    requires Disciplined(Init(fibers), acts) && h < |Exec(Init(fibers), acts).pc|
    ensures var s := Exec(Init(fibers), acts);
      var s' := Step(s, a);
      && Sizes(s.b, |s.pc|) && Sizes(s'.b, |s.pc|)
      && (s.b.place[h] != Ready && s'.b.place[h] == Ready ==>
            && a.Run? && a.f < |s.pc| && s.pc[a.f].Pass? && s.pc[a.f].h == h && s.b.place[h] == Hands(a.f)
            && (forall v | 0 <= v < |s.pc| :: InHand(s.pc[v]) == Some(h) <==> v == a.f))
      && (s.b.place[h] == Ready ==>
            && (forall v | 0 <= v < |s.pc| :: InHand(s.pc[v]) != Some(h))
            && (s'.b.place[h] != Ready ==> a == Resume(h)))
  {
    ExecKeepsInv(fibers, acts);
    var s := Exec(Init(fibers), acts);
    forall v | 0 <= v < |s.pc| && InHand(s.pc[v]) == Some(h)
      ensures s.b.place[h] == Hands(v)
    {
      Facts(s, v);
    }
    if a.f < |s.pc| {
      Facts(s, a.f);
      if s.pc[a.f].Drain? && s.pc[a.f].head.Some? { HeadIsListed(s.b, |s.pc|, s.pc[a.f].head.value); }
      ReadyChanges(s, a, h);
    }
  }

  lemma ReadyChanges(s: State, a: Action, h: nat)
    requires Sizes(s.b, |s.pc|) && a.f < |s.pc| && h < |s.pc| && PcOk(s.word, s.b, |s.pc|, a.f, s.pc[a.f])
    requires s.pc[a.f].Drain? && s.pc[a.f].head.Some? ==>
      s.pc[a.f].head.value < |s.pc| && s.b.place[s.pc[a.f].head.value] == Queued
    ensures var s' := Step(s, a);
      && Sizes(s'.b, |s.pc|)
      && (s.b.place[h] != Ready && s'.b.place[h] == Ready ==> a.Run? && s.pc[a.f].Pass? && s.pc[a.f].h == h)
      && (s.b.place[h] == Ready && s'.b.place[h] != Ready ==> a == Resume(h))
  {
  }
}

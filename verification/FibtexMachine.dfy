/** Fibtex under every interleaving of any number of fibers. One step is one load, store or
    compare-exchange of m_word, or one access to a bundle on the waiter list. A weak
    compare-exchange may fail even when the word matches: each step carries a flag saying whether
    it was allowed to succeed. Only the holder unlocks.

    A fiber that has queued itself calls SwitchToFreeFiber (Parked); the thread it left sets its
    FiberIsSwitched flag (CleanUp); it resumes once it has been handed to AddReadyFiber and the flag
    is set (Resume).

    owner, queueOwner and heir are history, read by no step's control flow; so are queue and place
    in Bundles, but for one thing: that a place is Ready stands for the scheduler having been handed
    the bundle, and Resume is a step the scheduler takes only then. */
module FibtexMachine {
  import opened Options
  import opened WaiterList

  // The three things packed into m_word.
  datatype Word = Word(locked: bool, queueLocked: bool, head: Link)

  const FREE := Word(false, false, None)
  const ONLY_LOCKED := Word(true, false, None)
  const SPIN_LIMIT: nat := 40

  // What a fiber does next; `n` is spinCount, `w` a captured word, `h` a queue head.
  datatype Pc =
    | Out
    | LockFast
    | SlowTop(n: nat)
    | SlowCas(n: nat, w: Word)
    | SlowReload(n: nat)
    | QueueCas(n: nat, w: Word)
    | InitBundle(n: nat, head: Link)
    | LinkNext(n: nat, h: nat)
    | SetTail(n: nat, h: nat)
    | ReloadFull(n: nat)
    | StoreFull(n: nat, w: Word)
    | SelfTail(n: nat)
    | ReloadEmpty(n: nat)
    | StoreEmpty(n: nat, w: Word)
    | SwitchAway(n: nat)
    | Parked(n: nat)
    | Resumed(n: nat)
    | TryFast
    | TryLoad
    | TryCas(w: Word)
    | Holding
    | UnlockFast
    | UnlockTop
    | UnlockCas
    | UnlockQueueCas(w: Word)
    | UnlockLoad
    | ReadNext(h: nat)
    | PassTail(h: nat, x: nat)
    | UnlockReload(h: nat, rest: Link)
    | UnlockStore(w: Word, h: nat, rest: Link)
    | UnlinkNext(h: nat)
    | UnlinkTail(h: nat)
    | MakeReady(h: nat)

  datatype State = State(
    ableToSpin: bool,
    word: Word,
    pc: seq<Pc>,
    b: Bundles,
    owner: Link,
    queueOwner: Link,
    heir: Link)

  datatype Call = Lock | TryLock | Unlock

  datatype Action = Start(f: nat, call: Call) | Run(f: nat, ok: bool) | CleanUp(f: nat) | Resume(f: nat)

  function Init(ableToSpin: bool, fibers: nat): State {
    State(ableToSpin, FREE, seq(fibers, _ => Out), NoBundles(fibers), None, None, None)
  }

  function Goto(s: State, f: nat, pc: Pc): State
    requires f < |s.pc|
  {
    s.(pc := s.pc[f := pc])
  }

  // ---- lock and LockSlow ----

  function Acquire(s: State, f: nat): State
    requires f < |s.pc|
  {
    Goto(s.(word := s.word.(locked := true), owner := Some(f)), f, Holding)
  }

  // With the word just read: spin again, or go for the queue.
  function SpinOrQueue(s: State, f: nat, n: nat, w: Word): State
    requires f < |s.pc|
  {
    Goto(s, f, if s.ableToSpin && w.head.None? && n < SPIN_LIMIT then SlowTop(n + 1) else SlowReload(n))
  }

  function LockStep(s: State, f: nat, ok: bool): State
    requires f < |s.pc|
  {
    match s.pc[f]
    case LockFast => if ok && s.word == FREE then Acquire(s, f) else Goto(s, f, SlowTop(0))
    case SlowTop(n) => if !s.word.locked then Goto(s, f, SlowCas(n, s.word)) else SpinOrQueue(s, f, n, s.word)
    case SlowCas(n, w) => if ok && s.word == w then Acquire(s, f) else SpinOrQueue(s, f, n, s.word)
    case SlowReload(n) =>
      Goto(s, f, if s.word.queueLocked || !s.word.locked then SlowTop(n) else QueueCas(n, s.word))
    case QueueCas(n, w) =>
      if ok && s.word == w
      then Goto(s.(word := s.word.(queueLocked := true), queueOwner := Some(f)), f, InitBundle(n, w.head))
      else Goto(s, f, SlowTop(n))
    case Resumed(n) => Goto(s, f, SlowTop(n))
    case TryFast => if ok && s.word == FREE then Acquire(s, f) else Goto(s, f, TryLoad)
    case TryLoad => Goto(s, f, if !s.word.locked then TryCas(s.word) else Out)
    case TryCas(w) => if ok && s.word == w then Acquire(s, f) else Goto(s, f, Out)
    case _ => s
  }

  // Putting oneself on the queue, holding its lock.
  function EnqueueStep(s: State, f: nat): State
    requires f < |s.pc|
  {
    match s.pc[f]
    case InitBundle(n, head) =>
      Goto(s.(b := Fresh(s.b, f)), f, if head.Some? then LinkNext(n, head.value) else SelfTail(n))
    case LinkNext(n, h) => Goto(s.(b := LinkBehind(s.b, h, f)), f, SetTail(n, h))
    case SetTail(n, h) => Goto(s.(b := PointTail(s.b, h, Some(f))), f, ReloadFull(n))
    case ReloadFull(n) => Goto(s, f, StoreFull(n, s.word))
    case StoreFull(n, w) =>
      Goto(s.(word := w.(queueLocked := false), queueOwner := None), f, SwitchAway(n))
    case SelfTail(n) => Goto(s.(b := StartQueue(s.b, f)), f, ReloadEmpty(n))
    case ReloadEmpty(n) => Goto(s, f, StoreEmpty(n, s.word))
    case StoreEmpty(n, w) =>
      Goto(s.(word := w.(queueLocked := false, head := Some(f)), queueOwner := None), f, SwitchAway(n))
    case SwitchAway(n) => Goto(s, f, Parked(n))
    case _ => s
  }

  // ---- unlock and UnlockSlow ----

  function UnlockStep(s: State, f: nat, ok: bool): State
    requires f < |s.pc|
  {
    match s.pc[f]
    case UnlockFast =>
      if ok && s.word == ONLY_LOCKED then Goto(s.(word := FREE, owner := None), f, Out) else Goto(s, f, UnlockTop)
    case UnlockTop =>
      Goto(s, f, if s.word == ONLY_LOCKED then UnlockCas
                 else if s.word.queueLocked then UnlockTop
                 else UnlockQueueCas(s.word))
    case UnlockCas =>
      if ok && s.word == ONLY_LOCKED then Goto(s.(word := FREE, owner := None), f, Out) else Goto(s, f, UnlockTop)
    case UnlockQueueCas(w) =>
      if ok && s.word == w
      then Goto(s.(word := s.word.(queueLocked := true), queueOwner := Some(f)), f, UnlockLoad)
      else Goto(s, f, UnlockTop)
    case UnlockLoad => if s.word.head.Some? then Goto(s, f, ReadNext(s.word.head.value)) else s
    case ReadNext(h) =>
      var rest := LinkAt(s.b.next, h);
      Goto(s, f, if rest.Some? then PassTail(h, rest.value) else UnlockReload(h, None))
    case PassTail(h, x) => Goto(s.(b := PointTail(s.b, x, LinkAt(s.b.tail, h))), f, UnlockReload(h, Some(x)))
    case UnlockReload(h, rest) => Goto(s, f, UnlockStore(s.word, h, rest))
    case UnlockStore(w, h, rest) =>
      Goto(s.(word := Word(false, false, rest), owner := None, queueOwner := None,
              b := TakeFront(s.b, h, f), heir := Some(h)), f, UnlinkNext(h))
    case UnlinkNext(h) => Goto(s.(b := ClearNext(s.b, h)), f, UnlinkTail(h))
    case UnlinkTail(h) => Goto(s.(b := ClearTail(s.b, h)), f, MakeReady(h))
    case MakeReady(h) => Goto(s.(b := HandOver(s.b, h)), f, Out)
    case _ => s
  }

  // ---- All steps ----

  function RunStep(s: State, f: nat, ok: bool): State
    requires f < |s.pc|
  {
    if InEnqueue(s.pc[f]) then EnqueueStep(s, f)
    else if InUnlock(s.pc[f]) then UnlockStep(s, f, ok)
    else LockStep(s, f, ok)
  }

  predicate InEnqueue(pc: Pc) {
    pc.InitBundle? || pc.LinkNext? || pc.SetTail? || pc.ReloadFull? || pc.StoreFull? || pc.SelfTail?
    || pc.ReloadEmpty? || pc.StoreEmpty? || pc.SwitchAway?
  }

  predicate InUnlock(pc: Pc) {
    pc.UnlockFast? || pc.UnlockTop? || pc.UnlockCas? || pc.UnlockQueueCas? || InDequeue(pc) || pc.UnlinkNext?
    || pc.UnlinkTail? || pc.MakeReady?
  }

  predicate InDequeue(pc: Pc) {
    pc.UnlockLoad? || pc.ReadNext? || pc.PassTail? || pc.UnlockReload? || pc.UnlockStore?
  }

  function Step(s: State, a: Action): State {
    if a.f >= |s.pc| then s else
    match a
    case Start(f, call) =>
      match call {
        case Lock => if s.pc[f].Out? then Goto(s, f, LockFast) else s
        case TryLock => if s.pc[f].Out? then Goto(s, f, TryFast) else s
        case Unlock => if s.pc[f].Holding? then Goto(s, f, UnlockFast) else s
      }
    case Run(f, ok) => RunStep(s, f, ok)
    case CleanUp(f) => if s.pc[f].Parked? then s.(b := MarkSwitched(s.b, f)) else s
    case Resume(f) =>
      if s.pc[f].Parked? && f < |s.b.place| && s.b.place[f].Ready? && f < |s.b.switched| && s.b.switched[f]
      then Goto(s.(b := Wake(s.b, f)), f, Resumed(s.pc[f].n)) else s
  }

  function Exec(s: State, acts: seq<Action>): State {
    if acts == [] then s else Step(Exec(s, acts[..|acts| - 1]), acts[|acts| - 1])
  }

  // ---- The invariant ----

  // From a successful lock or try_lock to the store or compare-exchange that releases it.
  predicate HoldsLock(pc: Pc) {
    pc.Holding? || pc.UnlockFast? || pc.UnlockTop? || pc.UnlockCas? || pc.UnlockQueueCas? || InDequeue(pc)
  }

  // From the compare-exchange that sets the queue bit to the store that clears it.
  predicate HoldsQueue(pc: Pc) {
    (InEnqueue(pc) && !pc.SwitchAway?) || InDequeue(pc)
  }

  // Back in LockSlow's loop, trying for the lock.
  predicate Contends(pc: Pc) {
    pc.Resumed? || pc.SlowTop? || pc.SlowCas? || pc.SlowReload? || pc.QueueCas?
  }

  // A bundle may be on the list, dequeued or ready only while its fiber is here.
  predicate Waits(pc: Pc) {
    pc.SetTail? || pc.ReloadFull? || pc.StoreFull? || Founds(pc) || pc.SwitchAway? || pc.Parked?
  }

  // Its bundle is the whole list, but not in the word yet.
  predicate Founds(pc: Pc) {
    pc.ReloadEmpty? || pc.StoreEmpty?
  }

  // The bundle a fiber has dequeued and not yet passed on.
  function InHand(pc: Pc): Link {
    match pc
    case UnlinkNext(h) => Some(h)
    case UnlinkTail(h) => Some(h)
    case MakeReady(h) => Some(h)
    case _ => None
  }

  ghost predicate LocksOk(s: State) {
    && (forall f | 0 <= f < |s.pc| :: HoldsLock(s.pc[f]) <==> s.owner == Some(f))
    && (forall f | 0 <= f < |s.pc| :: HoldsQueue(s.pc[f]) <==> s.queueOwner == Some(f))
    && (s.word.locked <==> s.owner.Some?)
    && (s.word.queueLocked <==> s.queueOwner.Some?)
    && (s.word.queueLocked ==> s.word.locked)
    && (s.owner.Some? ==> s.owner.value < |s.pc|)
    && (s.queueOwner.Some? ==> s.queueOwner.value < |s.pc|)
  }

  // What the fiber holding the queue lock is doing.
  function QueuePc(s: State): Pc {
    if s.queueOwner.Some? && s.queueOwner.value < |s.pc| then s.pc[s.queueOwner.value] else Out
  }

  ghost predicate QueueOk(b: Bundles, n: nat, word: Word, busy: Pc) {
    && ListOk(b, n)
    && TailOk(b, if busy.SetTail? then Lags else Right)
    && word.head == (if Founds(busy) then None else Head(b.queue))
  }

  ghost predicate PlacesOk(b: Bundles, pcs: seq<Pc>)
    requires Sizes(b, |pcs|)
  {
    && (forall f | 0 <= f < |pcs| :: b.place[f] != Awake ==> Waits(pcs[f]))
    && (forall f | 0 <= f < |pcs| ::
          b.place[f].Hands? ==> b.place[f].u < |pcs| && InHand(pcs[b.place[f].u]) == Some(f))
  }

  // What fiber f of n may rely on when it is at pc.
  ghost predicate PcOk(word: Word, b: Bundles, n: nat, f: nat, pc: Pc)
    requires Sizes(b, n) && f < n
  {
    match pc
    case SlowCas(_, w) => !w.locked && !w.queueLocked
    case TryCas(w) => !w.locked && !w.queueLocked
    case QueueCas(_, w) => w.locked && !w.queueLocked
    case InitBundle(_, head) => word.head == head && b.place[f] == Awake
    case LinkNext(_, h) =>
      word.head == Some(h) && b.next[f] == None && b.tail[f] == None && !b.switched[f] && b.place[f] == Awake
    case SetTail(_, h) => b.place[f] == Queued && word.head == Some(h) && Last(b.queue) == Some(f) && !b.switched[f]
    case ReloadFull(_) => b.place[f] == Queued && word.head.Some? && !b.switched[f]
    case StoreFull(_, w) => b.place[f] == Queued && w == word && word.head.Some? && !b.switched[f]
    case SelfTail(_) => word.head == None && b.next[f] == None && !b.switched[f] && b.place[f] == Awake
    case ReloadEmpty(_) => b.place[f] == Queued && b.queue == [f] && !b.switched[f]
    case StoreEmpty(_, w) => b.place[f] == Queued && b.queue == [f] && w == word && !b.switched[f]
    case SwitchAway(_) => b.place[f] != Awake && !b.switched[f]
    case Parked(_) => b.place[f] != Awake
    case Resumed(_) => b.next[f] == None && b.tail[f] == None
    case UnlockQueueCas(w) => w.locked && !w.queueLocked && w.head.Some?
    case UnlockLoad => word.head.Some?
    case ReadNext(h) => word.head == Some(h)
    case PassTail(h, x) => word.head == Some(h) && h < n && b.next[h] == Some(x)
    case UnlockReload(h, rest) =>
      word.head == Some(h) && h < n && b.next[h] == rest
      && (rest.Some? ==> rest.value < n && b.tail[rest.value] == b.tail[h])
    case UnlockStore(w, h, rest) =>
      w == word && word.head == Some(h) && h < n && b.next[h] == rest
      && (rest.Some? ==> rest.value < n && b.tail[rest.value] == b.tail[h])
    case UnlinkNext(h) => h < n && b.place[h] == Hands(f)
    case UnlinkTail(h) => h < n && b.place[h] == Hands(f) && b.next[h] == None
    case MakeReady(h) => h < n && b.place[h] == Hands(f) && b.next[h] == None && b.tail[h] == None
    case _ => true
  }

  // Dequeued and not yet resumed, or back in LockSlow's loop: sure to try for the lock.
  ghost predicate WillContend(s: State, d: nat)
    requires Sizes(s.b, |s.pc|)
  {
    && d < |s.pc|
    && (s.b.place[d].Hands? || s.b.place[d].Ready? || (s.b.place[d].Awake? && Contends(s.pc[d])))
  }

  ghost predicate HeirOk(s: State)
    requires Sizes(s.b, |s.pc|)
  {
    !s.word.locked && |s.b.queue| > 0 ==> s.heir.Some? && WillContend(s, s.heir.value)
  }

  ghost predicate PcsOk(word: Word, b: Bundles, pcs: seq<Pc>)
    requires Sizes(b, |pcs|)
  {
    forall f {:trigger PcOk(word, b, |pcs|, f, pcs[f])} | 0 <= f < |pcs| :: PcOk(word, b, |pcs|, f, pcs[f])
  }

  ghost predicate Inv(s: State) {
    && LocksOk(s)
    && QueueOk(s.b, |s.pc|, s.word, QueuePc(s))
    && PlacesOk(s.b, s.pc)
    && PcsOk(s.word, s.b, s.pc)
    && HeirOk(s)
  }

  // ---- How one fiber's step carries each part of the invariant over ----

  lemma LocksMove(s: State, s': State, f: nat)
    requires LocksOk(s) && f < |s.pc| && |s'.pc| == |s.pc| && s'.pc == s.pc[f := s'.pc[f]]
    requires HoldsLock(s'.pc[f]) ==> s.owner == None || s.owner == Some(f)
    requires HoldsQueue(s'.pc[f]) ==> s.queueOwner == None || s.queueOwner == Some(f)
    requires s'.owner == if HoldsLock(s'.pc[f]) then Some(f) else if HoldsLock(s.pc[f]) then None else s.owner
    requires s'.queueOwner == if HoldsQueue(s'.pc[f]) then Some(f)
                              else if HoldsQueue(s.pc[f]) then None else s.queueOwner
    requires s'.word.locked <==> s'.owner.Some?
    requires s'.word.queueLocked <==> s'.queueOwner.Some?
    requires s'.word.queueLocked ==> s'.word.locked
    ensures LocksOk(s')
    ensures HoldsQueue(s'.pc[f]) ==> QueuePc(s') == s'.pc[f]
    ensures !HoldsQueue(s'.pc[f]) && !HoldsQueue(s.pc[f]) ==> QueuePc(s') == QueuePc(s)
    ensures !HoldsQueue(s'.pc[f]) && HoldsQueue(s.pc[f]) ==> QueuePc(s') == Out
  {
  }

  // A step between places where f holds neither lock, that leaves them alone.
  lemma LocksStay(s: State, s': State, f: nat)
    requires LocksOk(s) && f < |s.pc| && |s'.pc| == |s.pc| && s'.pc == s.pc[f := s'.pc[f]]
    requires !HoldsLock(s.pc[f]) && !HoldsQueue(s.pc[f]) && !HoldsLock(s'.pc[f]) && !HoldsQueue(s'.pc[f])
    requires s'.word == s.word && s'.owner == s.owner && s'.queueOwner == s.queueOwner
    ensures LocksOk(s') && QueuePc(s') == QueuePc(s)
  {
  }

  lemma HoldsNeither(pc: Pc)
    requires InLock(pc) || pc.Out? || pc.Parked? || pc.SwitchAway? || InHand(pc).Some?
    ensures !HoldsLock(pc) && !HoldsQueue(pc)
      && (InHand(pc).Some? ==> pc.UnlinkNext? || pc.UnlinkTail? || pc.MakeReady?)
  {
  }

  lemma PlacesMove(b: Bundles, pcs: seq<Pc>, f: nat, pc: Pc)
    requires Sizes(b, |pcs|) && PlacesOk(b, pcs) && f < |pcs|
    requires (b.place[f] != Awake ==> Waits(pc)) && (InHand(pcs[f]).Some? ==> InHand(pc) == InHand(pcs[f]))
    ensures PlacesOk(b, pcs[f := pc])
  {
  }

  lemma HeirMove(s: State, s': State)
    requires Sizes(s.b, |s.pc|) && Sizes(s'.b, |s'.pc|) && HeirOk(s)
    requires !s'.word.locked && |s'.b.queue| > 0 ==>
      && !s.word.locked && |s.b.queue| > 0 && s'.heir == s.heir
      && forall d: nat :: WillContend(s, d) ==> WillContend(s', d)
    ensures HeirOk(s')
  {
  }

  lemma HeirKeepsContending(s: State, f: nat, pc: Pc)
    requires Sizes(s.b, |s.pc|) && HeirOk(s) && f < |s.pc| && (Contends(s.pc[f]) ==> Contends(pc))
    ensures HeirOk(Goto(s, f, pc))
  {
  }

  // A fiber that does not hold the queue lock relies on its own bundle and on the one in its hand.
  lemma ApartKeeps(word: Word, word': Word, b: Bundles, b': Bundles, n: nat, g: nat, pc: Pc)
    requires Sizes(b, n) && Sizes(b', n) && g < n && PcOk(word, b, n, g, pc) && !HoldsQueue(pc)
    requires b'.place[g] == Awake <==> b.place[g] == Awake
    requires pc.SwitchAway? ==> b'.switched[g] == b.switched[g]
    requires pc.Resumed? ==> b'.next[g] == b.next[g] && b'.tail[g] == b.tail[g]
    requires InHand(pc).Some? ==> var h := InHand(pc).value;
      h < n && b'.place[h] == b.place[h] && b'.next[h] == b.next[h] && b'.tail[h] == b.tail[h]
    ensures PcOk(word', b', n, g, pc)
  {
  }

  // No fiber relies on where the bundle of another is, but for the one in its hand.
  lemma PlaceKeepsPc(word: Word, b: Bundles, n: nat, g: nat, pc: Pc, f: nat, to: Place)
    requires Sizes(b, n) && g < n && f < n && g != f && PcOk(word, b, n, g, pc) && InHand(pc) != Some(f)
    ensures PcOk(word, b.(place := b.place[f := to]), n, g, pc)
  {
  }

  // What the other fibers rely on survives a step of f on its own bundle or on listed ones, and on
  // the word, made while no other fiber holds the queue lock.
  lemma OthersKeep(s: State, word: Word, b: Bundles, f: nat)
    requires LocksOk(s) && Sizes(s.b, |s.pc|) && PlacesOk(s.b, s.pc) && PcsOk(s.word, s.b, s.pc) && f < |s.pc|
      && Sizes(b, |s.pc|)
    requires s.queueOwner == None || s.queueOwner == Some(f)
    requires !s.b.place[f].Hands?
    requires forall y | 0 <= y < |s.pc| && y != f :: b.place[y] == s.b.place[y] && b.switched[y] == s.b.switched[y]
    requires forall y | 0 <= y < |s.pc| && y != f && s.b.place[y] != Queued ::
      b.next[y] == s.b.next[y] && b.tail[y] == s.b.tail[y]
    ensures forall g | 0 <= g < |s.pc| && g != f :: PcOk(word, b, |s.pc|, g, s.pc[g])
  {
    forall g | 0 <= g < |s.pc| && g != f
      ensures PcOk(word, b, |s.pc|, g, s.pc[g])
    {
      assert !HoldsQueue(s.pc[g]);
      assert PcOk(s.word, s.b, |s.pc|, g, s.pc[g]);
      HandIsTheirs(s.word, s.b, |s.pc|, g, s.pc[g]);
      ApartKeeps(s.word, word, s.b, b, |s.pc|, g, s.pc[g]);
    }
  }

  lemma HandIsTheirs(word: Word, b: Bundles, n: nat, g: nat, pc: Pc)
    requires Sizes(b, n) && g < n && PcOk(word, b, n, g, pc)
    ensures InHand(pc).Some? ==> InHand(pc).value < n && b.place[InHand(pc).value] == Hands(g)
    ensures pc.Resumed? || pc.SwitchAway? ==> !HoldsQueue(pc)
  {
  }

  // ---- Trying for the lock ----

  // Trying for the lock, holding nothing.
  predicate InLock(pc: Pc) {
    pc.LockFast? || Contends(pc) || pc.TryFast? || pc.TryLoad? || pc.TryCas?
  }

  predicate CaptureOk(pc: Pc) {
    && ((pc.SlowCas? || pc.TryCas?) ==> !pc.w.locked && !pc.w.queueLocked)
    && (pc.QueueCas? ==> pc.w.locked && !pc.w.queueLocked)
  }

  lemma Facts(s: State, f: nat)
    requires Inv(s) && f < |s.pc|
    ensures (s.word.queueLocked ==> s.word.locked) && CaptureOk(s.pc[f])
    ensures !Waits(s.pc[f]) ==> s.b.place[f] == Awake
    ensures HoldsLock(s.pc[f]) ==> s.word.locked && s.owner == Some(f)
    ensures HoldsQueue(s.pc[f]) ==> s.word.queueLocked && s.queueOwner == Some(f) && QueuePc(s) == s.pc[f]
    ensures !s.word.locked ==> s.owner == None
    ensures !s.word.queueLocked ==> s.queueOwner == None && QueuePc(s) == Out
  {
    assert PcOk(s.word, s.b, |s.pc|, f, s.pc[f]);
  }

  lemma CapturePcOk(word: Word, b: Bundles, n: nat, f: nat, pc: Pc)
    requires Sizes(b, n) && f < n && (pc.Out? || (InLock(pc) && !pc.Resumed? && CaptureOk(pc)))
    ensures PcOk(word, b, n, f, pc) && !HoldsLock(pc) && !HoldsQueue(pc) && InHand(pc) == None
  {
  }

  lemma MoveInLock(s: State, f: nat, pc: Pc)
    requires Inv(s) && f < |s.pc| && (InLock(s.pc[f]) || s.pc[f].Out?)
    requires pc.Out? || (InLock(pc) && !pc.Resumed? && CaptureOk(pc))
    requires Contends(s.pc[f]) ==> Contends(pc)
    ensures Inv(Goto(s, f, pc))
  {
    var s' := Goto(s, f, pc);
    CapturePcOk(s.word, s.b, |s.pc|, f, pc);
    HoldsNeither(s.pc[f]);
    LocksStay(s, s', f);
    Facts(s, f);
    PlacesMove(s.b, s.pc, f, pc);
    HeirKeepsContending(s, f, pc);
  }

  lemma AcquireKeepsInv(s: State, f: nat)
    requires Inv(s) && f < |s.pc| && !s.word.locked && !s.word.queueLocked && InLock(s.pc[f])
    ensures Inv(Acquire(s, f))
  {
    var s' := Acquire(s, f);
    assert s.b.place[f] == Awake && s.owner == None && s.queueOwner == None by { Facts(s, f); }
    HoldsNeither(s.pc[f]);
    AcquireKeepsPcs(s, f, s'.word);
    PlacesMove(s.b, s.pc, f, Holding);
    HeirMove(s, s');
    LocksMove(s, s', f);
  }

  lemma AcquireKeepsPcs(s: State, f: nat, word: Word)
    requires LocksOk(s) && Sizes(s.b, |s.pc|) && PlacesOk(s.b, s.pc) && PcsOk(s.word, s.b, s.pc) && f < |s.pc|
    requires s.queueOwner == None && s.b.place[f] == Awake
    ensures PcsOk(word, s.b, s.pc[f := Holding])
  {
    OthersKeep(s, word, s.b, f);
  }

  lemma TakeQueueLockKeepsInv(s: State, f: nat, pc: Pc)
    requires Inv(s) && f < |s.pc| && !s.word.queueLocked && s.word.locked
    requires (s.pc[f].QueueCas? && pc == InitBundle(s.pc[f].n, s.word.head))
      || (s.pc[f].UnlockQueueCas? && s.word == s.pc[f].w && pc == UnlockLoad)
    ensures Inv(Goto(s.(word := s.word.(queueLocked := true), queueOwner := Some(f)), f, pc))
  {
    var s' := Goto(s.(word := s.word.(queueLocked := true), queueOwner := Some(f)), f, pc);
    Facts(s, f);
    assert PcOk(s.word, s.b, |s.pc|, f, s.pc[f]);
    assert PcsOk(s'.word, s.b, s'.pc) by { OthersKeep(s, s'.word, s.b, f); }
    LocksMove(s, s', f);
    PlacesMove(s.b, s.pc, f, pc);
    HeirMove(s, s');
  }

  // A lock step does nothing, takes the lock, takes the queue lock, or moves on.
  ghost predicate LockOutcome(s: State, f: nat, s': State)
    requires f < |s.pc| && f < |s'.pc|
  {
    var pc := s.pc[f];
    if !InLock(pc) then s' == s
    else if s'.pc[f].Holding? then s' == Acquire(s, f) && !s.word.locked && !s.word.queueLocked
    else if s'.pc[f].InitBundle? then
      pc.QueueCas? && !s.word.queueLocked && s.word.locked
      && s' == Goto(s.(word := s.word.(queueLocked := true), queueOwner := Some(f)), f, InitBundle(pc.n, s.word.head))
    else
      s' == Goto(s, f, s'.pc[f]) && (Contends(pc) ==> Contends(s'.pc[f]))
      && (s'.pc[f].Out? || (InLock(s'.pc[f]) && !s'.pc[f].Resumed? && CaptureOk(s'.pc[f])))
  }

  lemma SlowLockCases(s: State, f: nat, ok: bool)
    requires f < |s.pc| && (s.word.queueLocked ==> s.word.locked) && CaptureOk(s.pc[f]) && Contends(s.pc[f])
    ensures LockOutcome(s, f, LockStep(s, f, ok))
  {
  }

  lemma FastLockCases(s: State, f: nat, ok: bool)
    requires f < |s.pc| && (s.word.queueLocked ==> s.word.locked) && CaptureOk(s.pc[f]) && !Contends(s.pc[f])
    ensures LockOutcome(s, f, LockStep(s, f, ok))
  {
  }

  lemma LockKeepsInv(s: State, f: nat, ok: bool)
    requires Inv(s) && f < |s.pc|
    ensures Inv(LockStep(s, f, ok))
  {
    Facts(s, f);
    if Contends(s.pc[f]) { SlowLockCases(s, f, ok); } else { FastLockCases(s, f, ok); }
    var s' := LockStep(s, f, ok);
    if InLock(s.pc[f]) {
      if s'.pc[f].Holding? { AcquireKeepsInv(s, f); }
      else if s'.pc[f].InitBundle? { TakeQueueLockKeepsInv(s, f, s'.pc[f]); }
      else { MoveInLock(s, f, s'.pc[f]); }
    }
  }

  // ---- Steps made while holding, and keeping, the queue lock ----

  // Only the fiber's own bundle and listed ones change, and what it relies on next is true.
  ghost predicate SafeStep(word: Word, b: Bundles, b': Bundles, n: nat, f: nat, pc: Pc, pc': Pc)
    requires Sizes(b, n) && f < n
  {
    && HoldsQueue(pc') && HoldsLock(pc') == HoldsLock(pc)
    && QueueOk(b', n, word, pc') && PcOk(word, b', n, f, pc')
    && (forall y | 0 <= y < n && y != f :: b'.place[y] == b.place[y] && b'.switched[y] == b.switched[y])
    && (forall y | 0 <= y < n && y != f && b.place[y] != Queued :: b'.next[y] == b.next[y] && b'.tail[y] == b.tail[y])
    && !b'.place[f].Hands? && (b'.place[f] != Awake ==> Waits(pc'))
  }

  lemma QueueStep(s: State, f: nat, b: Bundles, pc: Pc)
    requires Inv(s) && f < |s.pc| && HoldsQueue(s.pc[f])
    requires SafeStep(s.word, s.b, b, |s.pc|, f, s.pc[f], pc)
    ensures Inv(Goto(s.(b := b), f, pc))
  {
    assert s.queueOwner == Some(f) && s.word.locked by { Facts(s, f); }
    assert PcOk(s.word, s.b, |s.pc|, f, s.pc[f]);
    HolderNotInHand(s.word, s.b, |s.pc|, f, s.pc[f]);
    assert PcsOk(s.word, b, s.pc[f := pc]) by { OthersKeep(s, s.word, b, f); }
    BusyLocksMove(s, f, b, pc);
    PlacesStep(s.b, b, s.pc, f, pc);
  }

  lemma HolderNotInHand(word: Word, b: Bundles, n: nat, f: nat, pc: Pc)
    requires Sizes(b, n) && f < n && PcOk(word, b, n, f, pc) && HoldsQueue(pc) && (b.place[f] != Awake ==> Waits(pc))
    ensures !b.place[f].Hands? && InHand(pc) == None
  {
  }

  lemma BusyLocksMove(s: State, f: nat, b: Bundles, pc: Pc)
    requires LocksOk(s) && f < |s.pc| && HoldsQueue(s.pc[f]) && HoldsQueue(pc) && HoldsLock(pc) == HoldsLock(s.pc[f])
    ensures LocksOk(Goto(s.(b := b), f, pc)) && QueuePc(Goto(s.(b := b), f, pc)) == pc
  {
    LocksMove(s, Goto(s.(b := b), f, pc), f);
  }

  lemma PlacesStep(b: Bundles, b': Bundles, pcs: seq<Pc>, f: nat, pc: Pc)
    requires Sizes(b, |pcs|) && Sizes(b', |pcs|) && PlacesOk(b, pcs) && f < |pcs| && InHand(pcs[f]) == None
    requires forall y | 0 <= y < |pcs| && y != f :: b'.place[y] == b.place[y]
    requires !b'.place[f].Hands? && (b'.place[f] != Awake ==> Waits(pc))
    ensures PlacesOk(b', pcs[f := pc])
  {
  }

  lemma QueueFacts(s: State, f: nat)
    requires Inv(s) && f < |s.pc| && HoldsQueue(s.pc[f])
    ensures QueueOk(s.b, |s.pc|, s.word, s.pc[f]) && PcOk(s.word, s.b, |s.pc|, f, s.pc[f])
    ensures !Waits(s.pc[f]) ==> s.b.place[f] == Awake
  {
    Facts(s, f);
  }

  lemma InitBundleKeepsInv(s: State, f: nat)
    requires Inv(s) && f < |s.pc| && s.pc[f].InitBundle?
    ensures Inv(EnqueueStep(s, f))
  {
    var pc := s.pc[f];
    QueueFacts(s, f);
    SafeInit(s.word, s.b, |s.pc|, f, pc);
    QueueStep(s, f, Fresh(s.b, f), if pc.head.Some? then LinkNext(pc.n, pc.head.value) else SelfTail(pc.n));
  }

  lemma SafeInit(word: Word, b: Bundles, n: nat, f: nat, pc: Pc)
    requires f < n && QueueOk(b, n, word, pc) && PcOk(word, b, n, f, pc) && pc.InitBundle?
    ensures SafeStep(word, b, Fresh(b, f), n, f, pc,
                     if pc.head.Some? then LinkNext(pc.n, pc.head.value) else SelfTail(pc.n))
  {
    FreshKeeps(b, n, f, Right);
  }

  lemma SafeLink(word: Word, b: Bundles, b': Bundles, n: nat, f: nat, pc: Pc)
    requires f < n && pc.LinkNext? && Sizes(b, n) && PcOk(word, b, n, f, pc)
    requires ListOk(b', n) && TailOk(b', Lags) && Head(b'.queue) == Some(pc.h) && b'.queue == b.queue + [f]
    requires b'.tail == b.tail && b'.switched == b.switched && b'.place == b.place[f := Queued]
    requires forall y | 0 <= y < n && b.place[y] != Queued :: b'.next[y] == b.next[y]
    ensures SafeStep(word, b, b', n, f, pc, SetTail(pc.n, pc.h))
  {
  }

  lemma LinkNextKeepsInv(s: State, f: nat)
    requires Inv(s) && f < |s.pc| && s.pc[f].LinkNext?
    ensures Inv(EnqueueStep(s, f))
  {
    QueueFacts(s, f);
    var b, h := LinkBehind(s.b, s.pc[f].h, f), s.pc[f].h;
    LinkBehindKeeps(s.b, |s.pc|, h, f);
    LinkBehindFrame(s.b, |s.pc|, h, f);
    SafeLink(s.word, s.b, b, |s.pc|, f, s.pc[f]);
    QueueStep(s, f, b, SetTail(s.pc[f].n, h));
  }

  lemma SetTailKeepsInv(s: State, f: nat)
    requires Inv(s) && f < |s.pc| && s.pc[f].SetTail?
    ensures Inv(EnqueueStep(s, f))
  {
    var pc := s.pc[f];
    QueueFacts(s, f);
    var b := PointTail(s.b, pc.h, Some(f));
    SafeSetTail(s.word, s.b, b, |s.pc|, f, pc);
    QueueStep(s, f, b, ReloadFull(pc.n));
  }

  lemma SafeSetTail(word: Word, b: Bundles, b': Bundles, n: nat, f: nat, pc: Pc)
    requires f < n && QueueOk(b, n, word, pc) && PcOk(word, b, n, f, pc) && pc.SetTail?
    requires b' == PointTail(b, pc.h, Some(f))
    ensures SafeStep(word, b, b', n, f, pc, ReloadFull(pc.n))
  {
    PointTailKeeps(b, n, pc.h, f);
    HeadsAreListed(word, b, n, pc);
  }

  lemma SelfTailKeepsInv(s: State, f: nat)
    requires Inv(s) && f < |s.pc| && s.pc[f].SelfTail?
    ensures Inv(EnqueueStep(s, f))
  {
    var b := StartQueue(s.b, f);
    QueueFacts(s, f);
    StartQueueKeeps(s.b, |s.pc|, f);
    SafeSelf(s.word, s.b, b, |s.pc|, f, s.pc[f]);
    QueueStep(s, f, b, ReloadEmpty(s.pc[f].n));
  }

  lemma SafeSelf(word: Word, b: Bundles, b': Bundles, n: nat, f: nat, pc: Pc)
    requires f < n && pc.SelfTail? && Sizes(b, n) && PcOk(word, b, n, f, pc)
    requires ListOk(b', n) && TailOk(b', Right) && b'.queue == [f]
    requires b'.next == b.next && b'.switched == b.switched && b'.place == b.place[f := Queued]
    requires forall y | 0 <= y < n && y != f :: b'.tail[y] == b.tail[y]
    ensures SafeStep(word, b, b', n, f, pc, ReloadEmpty(pc.n))
  {
  }

  lemma ReloadKeepsInv(s: State, f: nat)
    requires Inv(s) && f < |s.pc| && (s.pc[f].ReloadFull? || s.pc[f].ReloadEmpty?)
    ensures Inv(EnqueueStep(s, f))
  {
    QueueFacts(s, f);
    QueueStep(s, f, s.b, if s.pc[f].ReloadFull? then StoreFull(s.pc[f].n, s.word) else StoreEmpty(s.pc[f].n, s.word));
  }

  lemma ReadKeepsInv(s: State, f: nat)
    requires Inv(s) && f < |s.pc| && (s.pc[f].UnlockLoad? || s.pc[f].UnlockReload?)
    ensures Inv(UnlockStep(s, f, true))
  {
    var pc := s.pc[f];
    QueueFacts(s, f);
    QueueStep(s, f, s.b, if pc.UnlockLoad? then ReadNext(s.word.head.value) else UnlockStore(s.word, pc.h, pc.rest));
  }

  lemma ReadNextKeepsInv(s: State, f: nat)
    requires Inv(s) && f < |s.pc| && s.pc[f].ReadNext?
    ensures Inv(UnlockStep(s, f, true))
  {
    var h := s.pc[f].h;
    QueueFacts(s, f);
    DropFront(s.b.next, s.b.queue);
    var rest := s.b.next[h];
    var pc := if rest.Some? then PassTail(h, rest.value) else UnlockReload(h, None);
    SafeReadNext(s.word, s.b, |s.pc|, f, s.pc[f], pc);
    QueueStep(s, f, s.b, pc);
  }

  lemma SafeReadNext(word: Word, b: Bundles, n: nat, f: nat, pc: Pc, pc': Pc)
    requires f < n && QueueOk(b, n, word, pc) && PcOk(word, b, n, f, pc) && pc.ReadNext? && b.place[f] == Awake
    requires b.next[pc.h] == Head(b.queue[1..])
    requires pc' == if b.next[pc.h].Some? then PassTail(pc.h, b.next[pc.h].value) else UnlockReload(pc.h, None)
    ensures SafeStep(word, b, b, n, f, pc, pc')
  {
  }

  lemma PassTailKeepsInv(s: State, f: nat)
    requires Inv(s) && f < |s.pc| && s.pc[f].PassTail?
    ensures Inv(UnlockStep(s, f, true))
  {
    var h, x := s.pc[f].h, s.pc[f].x;
    var b := PointTail(s.b, x, LinkAt(s.b.tail, h));
    QueueFacts(s, f);
    SecondIsListed(s.b, |s.pc|, h, x);
    SafePassTail(s.word, s.b, b, |s.pc|, f, s.pc[f]);
    QueueStep(s, f, b, UnlockReload(h, Some(x)));
  }

  lemma SecondIsListed(b: Bundles, n: nat, h: nat, x: nat)
    requires ListOk(b, n) && Head(b.queue) == Some(h) && b.next[h] == Some(x)
    ensures x < n && x != h && b.place[x] == Queued
  {
    DropFront(b.next, b.queue);
    assert b.queue[1] == x;
    assert b.place[b.queue[1]] == Queued;
  }

  lemma SafePassTail(word: Word, b: Bundles, b': Bundles, n: nat, f: nat, pc: Pc)
    requires f < n && QueueOk(b, n, word, pc) && PcOk(word, b, n, f, pc) && pc.PassTail? && b.place[f] == Awake
    requires pc.x < n && pc.x != pc.h && b.place[pc.x] == Queued && b' == b.(tail := b.tail[pc.x := b.tail[pc.h]])
    ensures SafeStep(word, b, b', n, f, pc, UnlockReload(pc.h, Some(pc.x)))
  {
  }

  lemma StoreKeepsInv(s: State, f: nat)
    requires Inv(s) && f < |s.pc| && (s.pc[f].StoreFull? || s.pc[f].StoreEmpty?)
    ensures Inv(EnqueueStep(s, f))
  {
    PublishKeepsInv(s, EnqueueStep(s, f), f);
  }

  // The plain store that ends an enqueue: the word still has the value it stores, queue bit aside.
  lemma PublishKeepsInv(s: State, s': State, f: nat)
    requires Inv(s) && f < |s.pc| && (s.pc[f].StoreFull? || s.pc[f].StoreEmpty?)
    requires var pc := s.pc[f];
      var word := pc.w.(queueLocked := false, head := if pc.StoreFull? then pc.w.head else Some(f));
      s' == Goto(s.(word := word, queueOwner := None), f, SwitchAway(pc.n))
    ensures Inv(s')
  {
    Facts(s, f);
    assert PcOk(s.word, s.b, |s.pc|, f, s.pc[f]);
    StoreFits(s.word, s.b, |s.pc|, f, s.pc[f], s'.word);
    assert PcsOk(s'.word, s.b, s'.pc) by { OthersKeep(s, s'.word, s.b, f); }
    LocksMove(s, s', f);
    PlacesMove(s.b, s.pc, f, s'.pc[f]);
  }

  lemma StoreFits(word: Word, b: Bundles, n: nat, f: nat, pc: Pc, word': Word)
    requires f < n && QueueOk(b, n, word, pc) && PcOk(word, b, n, f, pc) && (pc.StoreFull? || pc.StoreEmpty?)
    requires word' == pc.w.(queueLocked := false, head := if pc.StoreFull? then pc.w.head else Some(f))
    ensures QueueOk(b, n, word', Out) && PcOk(word', b, n, f, SwitchAway(pc.n))
    ensures word'.locked == word.locked && !word'.queueLocked
  {
  }

  lemma SwitchAwayKeepsInv(s: State, f: nat)
    requires Inv(s) && f < |s.pc| && s.pc[f].SwitchAway?
    ensures Inv(EnqueueStep(s, f))
  {
    ParkingKeepsInv(s, f);
    assert EnqueueStep(s, f) == Goto(s, f, Parked(s.pc[f].n));
  }

  lemma ParkingKeepsInv(s: State, f: nat)
    requires Inv(s) && f < |s.pc| && s.pc[f].SwitchAway?
    ensures Inv(Goto(s, f, Parked(s.pc[f].n)))
  {
    var s' := Goto(s, f, Parked(s.pc[f].n));
    assert PcOk(s.word, s.b, |s.pc|, f, s.pc[f]);
    HoldsNeither(s.pc[f]);
    LocksStay(s, s', f);
    PlacesMove(s.b, s.pc, f, s'.pc[f]);
    HeirKeepsContending(s, f, s'.pc[f]);
  }

  // ---- Unlocking ----

  lemma FastUnlockKeepsInv(s: State, f: nat)
    requires Inv(s) && f < |s.pc| && (s.pc[f].UnlockFast? || s.pc[f].UnlockCas?) && s.word == ONLY_LOCKED
    ensures Inv(Goto(s.(word := FREE, owner := None), f, Out))
  {
    var s' := Goto(s.(word := FREE, owner := None), f, Out);
    Facts(s, f);
    assert PcsOk(FREE, s.b, s'.pc) by { OthersKeep(s, FREE, s.b, f); }
    LocksMove(s, s', f);
    PlacesMove(s.b, s.pc, f, Out);
  }

  lemma MoveInUnlock(s: State, f: nat, pc: Pc)
    requires Inv(s) && f < |s.pc| && HoldsLock(s.pc[f]) && !HoldsQueue(s.pc[f])
    requires pc.UnlockFast? || pc.UnlockTop? || pc.UnlockCas?
      || (pc.UnlockQueueCas? && pc.w.locked && !pc.w.queueLocked && pc.w.head.Some?)
    ensures Inv(Goto(s, f, pc))
  {
    var s' := Goto(s, f, pc);
    Facts(s, f);
    LocksMove(s, s', f);
    PlacesMove(s.b, s.pc, f, pc);
  }

  lemma UnlockStoreKeepsInv(s: State, f: nat)
    requires Inv(s) && f < |s.pc| && s.pc[f].UnlockStore?
    ensures Inv(UnlockStep(s, f, true))
  {
    RemovalKeepsInv(s, f);
    UnlockStoreIsRemoval(s, f);
  }

  function Removed(s: State, f: nat): State
    requires f < |s.pc| && s.pc[f].UnlockStore?
  {
    var pc := s.pc[f];
    Goto(s.(word := Word(false, false, pc.rest), owner := None, queueOwner := None,
            b := TakeFront(s.b, pc.h, f), heir := Some(pc.h)), f, UnlinkNext(pc.h))
  }

  lemma UnlockStoreIsRemoval(s: State, f: nat)
    requires f < |s.pc| && s.pc[f].UnlockStore?
    ensures UnlockStep(s, f, true) == Removed(s, f)
  {
  }

  // The plain store that releases both locks and removes the head from the queue.
  lemma RemovalKeepsInv(s: State, f: nat)
    requires Inv(s) && f < |s.pc| && s.pc[f].UnlockStore?
    ensures Inv(Removed(s, f))
  {
    var s' := Removed(s, f);
    QueueFacts(s, f);
    Facts(s, f);
    SafeRemove(s.word, s.b, |s.pc|, f, s.pc[f]);
    assert PcsOk(s'.word, s'.b, s'.pc) by { RemoveKeepsOthers(s, f, s.pc[f].h, s'.word); }
    HoldsNeither(s'.pc[f]);
    NewHeir(s', s.pc[f].h, f);
    LocksMove(s, s', f);
    RemoveKeepsPlaces(s.b, s.pc, f, s.pc[f].h);
  }

  lemma NewHeir(s: State, h: nat, f: nat)
    requires Sizes(s.b, |s.pc|) && h < |s.pc| && s.heir == Some(h) && s.b.place[h] == Hands(f)
    ensures HeirOk(s)
  {
  }

  lemma SafeRemove(word: Word, b: Bundles, n: nat, f: nat, pc: Pc)
    requires f < n && QueueOk(b, n, word, pc) && PcOk(word, b, n, f, pc) && pc.UnlockStore?
    ensures pc.h < n && b.place[pc.h] == Queued && b.queue == [pc.h] + TakeFront(b, pc.h, f).queue
    ensures QueueOk(TakeFront(b, pc.h, f), n, Word(false, false, pc.rest), Out)
    ensures PcOk(Word(false, false, pc.rest), TakeFront(b, pc.h, f), n, f, UnlinkNext(pc.h))
  {
    var b' := TakeFront(b, pc.h, f);
    assert pc.h == b.queue[0] && b.place[b.queue[0]] == Queued;
    assert ListOk(b', n) && TailOk(b', Right) && b.queue == [pc.h] + b'.queue && pc.rest == Head(b'.queue) by {
      TakeFrontKeeps(b, n, pc.h, f);
    }
  }

  lemma RemoveKeepsOthers(s: State, f: nat, h: nat, word: Word)
    requires LocksOk(s) && Sizes(s.b, |s.pc|) && PlacesOk(s.b, s.pc) && PcsOk(s.word, s.b, s.pc)
    requires f < |s.pc| && h < |s.pc| && s.b.place[h] == Queued && s.queueOwner == Some(f)
    ensures forall g | 0 <= g < |s.pc| && g != f :: PcOk(word, TakeFront(s.b, h, f), |s.pc|, g, s.pc[g])
  {
    forall g | 0 <= g < |s.pc| && g != f
      ensures PcOk(word, TakeFront(s.b, h, f), |s.pc|, g, s.pc[g])
    {
      assert !HoldsQueue(s.pc[g]);
      assert PcOk(s.word, s.b, |s.pc|, g, s.pc[g]);
      HandIsTheirs(s.word, s.b, |s.pc|, g, s.pc[g]);
      ApartKeeps(s.word, word, s.b, TakeFront(s.b, h, f), |s.pc|, g, s.pc[g]);
    }
  }

  lemma RemoveKeepsPlaces(b: Bundles, pcs: seq<Pc>, f: nat, h: nat)
    requires Sizes(b, |pcs|) && PlacesOk(b, pcs) && f < |pcs| && InHand(pcs[f]) == None
    requires h < |pcs| && b.place[h] == Queued && b.place[f] == Awake
    ensures PlacesOk(TakeFront(b, h, f), pcs[f := UnlinkNext(h)])
  {
  }

  // ---- Passing the dequeued bundle on: it is on nobody's list and only f may touch it ----

  // What fibers other than f rely on does not mention bundle h, except that its own fiber waits.
  lemma HandKeepsOther(s: State, f: nat, h: nat, b: Bundles, g: nat)
    requires Inv(s) && f < |s.pc| && InHand(s.pc[f]) == Some(h) && g < |s.pc| && g != f
    requires b == ClearNext(s.b, h) || b == ClearTail(s.b, h) || b == HandOver(s.b, h)
    ensures PcOk(s.word, b, |s.pc|, g, s.pc[g])
  {
    assert s.b.place[h] == Hands(f) && h < |s.pc| by { assert PcOk(s.word, s.b, |s.pc|, f, s.pc[f]); }
    assert PcOk(s.word, s.b, |s.pc|, g, s.pc[g]);
    if HoldsQueue(s.pc[g]) {
      QueueFacts(s, g);
      HandKeepsHolder(s.word, s.b, b, |s.pc|, g, s.pc[g], f, h);
    } else {
      HandKeepsApart(s.word, s.b, b, |s.pc|, g, s.pc[g], f, h);
    }
  }

  lemma HandKeepsHolder(word: Word, b: Bundles, b': Bundles, n: nat, g: nat, pc: Pc, f: nat, h: nat)
    requires g < n && f < n && g != f && h < n && QueueOk(b, n, word, pc) && PcOk(word, b, n, g, pc)
    requires HoldsQueue(pc) && b.place[h] == Hands(f)
    requires b' == ClearNext(b, h) || b' == ClearTail(b, h) || b' == HandOver(b, h)
    ensures PcOk(word, b', n, g, pc)
  {
    HeadsAreListed(word, b, n, pc);
  }

  lemma HandKeepsApart(word: Word, b: Bundles, b': Bundles, n: nat, g: nat, pc: Pc, f: nat, h: nat)
    requires Sizes(b, n) && g < n && f < n && g != f && h < n && PcOk(word, b, n, g, pc)
    requires !HoldsQueue(pc) && b.place[h] == Hands(f)
    requires b' == ClearNext(b, h) || b' == ClearTail(b, h) || b' == HandOver(b, h)
    ensures PcOk(word, b', n, g, pc)
  {
  }

  lemma HeadsAreListed(word: Word, b: Bundles, n: nat, pc: Pc)
    requires QueueOk(b, n, word, pc)
    ensures word.head.Some? ==> word.head.value < n && b.place[word.head.value] == Queued
    ensures word.head.Some? && b.next[word.head.value].Some? ==>
      b.next[word.head.value].value < n && b.place[b.next[word.head.value].value] == Queued
  {
    if word.head.Some? {
      DropFront(b.next, b.queue);
      assert b.place[b.queue[0]] == Queued;
      if |b.queue| > 1 { assert b.place[b.queue[1]] == Queued; }
    }
  }

  lemma HandStep(s: State, f: nat, h: nat, b: Bundles, pc: Pc)
    requires Inv(s) && f < |s.pc| && InHand(s.pc[f]) == Some(h) && h < |s.pc| && s.b.place[h] == Hands(f)
    requires QueueOk(b, |s.pc|, s.word, QueuePc(s)) && PcsOk(s.word, b, s.pc[f := pc]) && b.queue == s.b.queue
    requires (InHand(pc) == Some(h) && b.place == s.b.place) || (pc.Out? && b.place == s.b.place[h := Ready])
    ensures Inv(Goto(s.(b := b), f, pc))
  {
    Facts(s, f);
    HoldsNeither(s.pc[f]);
    HoldsNeither(pc);
    LocksStay(s, Goto(s.(b := b), f, pc), f);
    HandKeepsPlaces(s.b, s.pc, f, h, b, pc);
    HandKeepsHeir(s, f, h, b, pc);
  }

  lemma HandKeepsOthers(s: State, f: nat, h: nat, b: Bundles, pc: Pc)
    requires Inv(s) && f < |s.pc| && InHand(s.pc[f]) == Some(h)
    requires b == HandedOn(s.b, s.pc[f], h) && PcOk(s.word, b, |s.pc|, f, pc)
    ensures PcsOk(s.word, b, s.pc[f := pc])
  {
    forall g | 0 <= g < |s.pc| && g != f
      ensures PcOk(s.word, b, |s.pc|, g, s.pc[g])
    {
      HandKeepsOther(s, f, h, b, g);
    }
  }

  lemma HandFacts(s: State, f: nat, h: nat)
    requires Inv(s) && f < |s.pc| && InHand(s.pc[f]) == Some(h)
    ensures h < |s.pc| && s.b.place[h] == Hands(f)
    ensures QueueOk(s.b, |s.pc|, s.word, QueuePc(s)) && PcOk(s.word, s.b, |s.pc|, f, s.pc[f])
  {
    assert PcOk(s.word, s.b, |s.pc|, f, s.pc[f]);
  }

  lemma HandKeepsInv(s: State, f: nat)
    requires Inv(s) && f < |s.pc| && InHand(s.pc[f]).Some?
    ensures Inv(UnlockStep(s, f, true))
  {
    var h := InHand(s.pc[f]).value;
    HandFacts(s, f, h);
    HandShape(s, f, h);
    SafeHand(s.word, s.b, |s.pc|, f, h, s.pc[f], QueuePc(s));
    HandKeepsOthers(s, f, h, HandedOn(s.b, s.pc[f], h), AfterHand(s.pc[f], h));
    HandStep(s, f, h, HandedOn(s.b, s.pc[f], h), AfterHand(s.pc[f], h));
  }

  // What a step does to the bundle in the fiber's hand, and where the fiber goes on.
  function HandedOn(b: Bundles, pc: Pc, h: nat): Bundles {
    if pc.UnlinkNext? then ClearNext(b, h) else if pc.UnlinkTail? then ClearTail(b, h) else HandOver(b, h)
  }

  function AfterHand(pc: Pc, h: nat): Pc {
    if pc.UnlinkNext? then UnlinkTail(h) else if pc.UnlinkTail? then MakeReady(h) else Out
  }

  lemma HandShape(s: State, f: nat, h: nat)
    requires f < |s.pc| && InHand(s.pc[f]) == Some(h)
    ensures UnlockStep(s, f, true) == Goto(s.(b := HandedOn(s.b, s.pc[f], h)), f, AfterHand(s.pc[f], h))
  {
  }

  lemma SafeHand(word: Word, b: Bundles, n: nat, f: nat, h: nat, pc: Pc, busy: Pc)
    requires f < n && h < n && QueueOk(b, n, word, busy) && InHand(pc) == Some(h) && PcOk(word, b, n, f, pc)
    ensures QueueOk(HandedOn(b, pc, h), n, word, busy) && PcOk(word, HandedOn(b, pc, h), n, f, AfterHand(pc, h))
  {
    ClearKeeps(b, n, h, if busy.SetTail? then Lags else Right);
    PlaceKeeps(b, n, h, if busy.SetTail? then Lags else Right);
  }

  lemma HandKeepsPlaces(b: Bundles, pcs: seq<Pc>, f: nat, h: nat, b': Bundles, pc: Pc)
    requires Sizes(b, |pcs|) && PlacesOk(b, pcs) && f < |pcs| && h < |pcs| && InHand(pcs[f]) == Some(h)
    requires b.place[h] == Hands(f) && b.place[f] == Awake
    requires (InHand(pc) == Some(h) && b'.place == b.place) || (pc.Out? && b'.place == b.place[h := Ready])
    requires Sizes(b', |pcs|)
    ensures PlacesOk(b', pcs[f := pc])
  {
  }

  lemma HandKeepsHeir(s: State, f: nat, h: nat, b: Bundles, pc: Pc)
    requires Sizes(s.b, |s.pc|) && Sizes(b, |s.pc|) && HeirOk(s) && f < |s.pc| && InHand(s.pc[f]) == Some(h)
    requires h < |s.pc| && s.b.place[h] == Hands(f)
    requires b.queue == s.b.queue && (b.place == s.b.place || b.place == s.b.place[h := Ready])
    ensures HeirOk(Goto(s.(b := b), f, pc))
  {
  }

  lemma UnlockKeepsInv(s: State, f: nat, ok: bool)
    requires Inv(s) && f < |s.pc| && HoldsLock(s.pc[f]) && !HoldsQueue(s.pc[f])
    ensures Inv(UnlockStep(s, f, ok))
  {
    var s' := UnlockStep(s, f, ok);
    Facts(s, f);
    HeadIfFree(s, f);
    UnlockCases(s, f, ok);
    if s' != s {
      if s'.pc[f].Out? { FastUnlockKeepsInv(s, f); }
      else if s'.pc[f].UnlockLoad? { TakeQueueLockKeepsInv(s, f, UnlockLoad); }
      else { MoveInUnlock(s, f, s'.pc[f]); }
    }
  }

  // A step of unlock without the queue lock does nothing, releases the lock, takes the queue lock, or
  // moves on.
  lemma UnlockCases(s: State, f: nat, ok: bool)
    requires f < |s.pc| && HoldsLock(s.pc[f]) && !HoldsQueue(s.pc[f]) && s.word.locked
    ensures var pc, s' := s.pc[f], UnlockStep(s, f, ok);
      || s' == s
      || (s'.pc[f].Out? && s' == Goto(s.(word := FREE, owner := None), f, Out)
          && (pc.UnlockFast? || pc.UnlockCas?) && s.word == ONLY_LOCKED)
      || (s'.pc[f].UnlockLoad? && pc.UnlockQueueCas? && s.word == pc.w
          && s' == Goto(s.(word := s.word.(queueLocked := true), queueOwner := Some(f)), f, UnlockLoad))
      || (s' == Goto(s, f, s'.pc[f])
          && (s'.pc[f].UnlockTop? || s'.pc[f].UnlockCas?
              || (s'.pc[f] == UnlockQueueCas(s.word) && !s.word.queueLocked && s.word.head.Some?)))
  {
  }

  lemma HeadIfFree(s: State, f: nat)
    requires Inv(s) && f < |s.pc|
    ensures s.pc[f].UnlockQueueCas? ==> s.pc[f].w.locked && !s.pc[f].w.queueLocked
  {
    assert PcOk(s.word, s.b, |s.pc|, f, s.pc[f]);
  }

  lemma QueueStepKeepsInv(s: State, f: nat)
    requires Inv(s) && f < |s.pc| && InEnqueue(s.pc[f])
    ensures Inv(EnqueueStep(s, f))
  {
    match s.pc[f]
    case InitBundle(_, _) => InitBundleKeepsInv(s, f);
    case LinkNext(_, _) => LinkNextKeepsInv(s, f);
    case SetTail(_, _) => SetTailKeepsInv(s, f);
    case SelfTail(_) => SelfTailKeepsInv(s, f);
    case ReloadFull(_) => ReloadKeepsInv(s, f);
    case ReloadEmpty(_) => ReloadKeepsInv(s, f);
    case StoreFull(_, _) => StoreKeepsInv(s, f);
    case StoreEmpty(_, _) => StoreKeepsInv(s, f);
    case SwitchAway(_) => SwitchAwayKeepsInv(s, f);
  }

  lemma DequeueKeepsInv(s: State, f: nat)
    requires Inv(s) && f < |s.pc| && (InDequeue(s.pc[f]) || InHand(s.pc[f]).Some?)
    ensures Inv(UnlockStep(s, f, true))
  {
    match s.pc[f]
    case UnlockLoad => ReadKeepsInv(s, f);
    case UnlockReload(_, _) => ReadKeepsInv(s, f);
    case ReadNext(_) => ReadNextKeepsInv(s, f);
    case PassTail(_, _) => PassTailKeepsInv(s, f);
    case UnlockStore(_, _, _) => UnlockStoreKeepsInv(s, f);
    case _ => HandKeepsInv(s, f);
  }

  lemma RunKeepsInv(s: State, f: nat, ok: bool)
    requires Inv(s) && f < |s.pc|
    ensures Inv(RunStep(s, f, ok))
  {
    RunIsOneOf(s, f, ok);
    if InEnqueue(s.pc[f]) { QueueStepKeepsInv(s, f); }
    else if InDequeue(s.pc[f]) || InHand(s.pc[f]).Some? { DequeueKeepsInv(s, f); }
    else if InUnlock(s.pc[f]) { UnlockKeepsInv(s, f, ok); }
    else { LockKeepsInv(s, f, ok); }
  }

  lemma RunIsOneOf(s: State, f: nat, ok: bool)
    requires f < |s.pc|
    ensures InEnqueue(s.pc[f]) ==> RunStep(s, f, ok) == EnqueueStep(s, f)
    ensures InDequeue(s.pc[f]) || InHand(s.pc[f]).Some? ==> RunStep(s, f, ok) == UnlockStep(s, f, true)
    ensures InUnlock(s.pc[f]) ==> RunStep(s, f, ok) == UnlockStep(s, f, ok)
    ensures !InEnqueue(s.pc[f]) && !InUnlock(s.pc[f]) ==> RunStep(s, f, ok) == LockStep(s, f, ok)
    ensures InUnlock(s.pc[f]) && !InDequeue(s.pc[f]) && InHand(s.pc[f]).None? ==>
      HoldsLock(s.pc[f]) && !HoldsQueue(s.pc[f])
  {
  }

  lemma StartKeepsInv(s: State, f: nat, call: Call)
    requires Inv(s) && f < |s.pc|
    ensures Inv(Step(s, Start(f, call)))
  {
    match call
    case Lock => if s.pc[f].Out? { MoveInLock(s, f, LockFast); }
    case TryLock => if s.pc[f].Out? { MoveInLock(s, f, TryFast); }
    case Unlock => if s.pc[f].Holding? { MoveInUnlock(s, f, UnlockFast); }
  }

  lemma CleanUpKeepsInv(s: State, f: nat)
    requires Inv(s) && f < |s.pc| && s.pc[f].Parked?
    ensures Inv(s.(b := MarkSwitched(s.b, f)))
  {
    var b := MarkSwitched(s.b, f);
    MarkSwitchedKeeps(s.b, |s.pc|, f, if QueuePc(s).SetTail? then Lags else Right);
    assert PcsOk(s.word, b, s.pc) by {
      forall g | 0 <= g < |s.pc|
        ensures PcOk(s.word, b, |s.pc|, g, s.pc[g])
      {
        assert PcOk(s.word, s.b, |s.pc|, g, s.pc[g]);
      }
    }
  }

  lemma ResumeKeepsInv(s: State, f: nat)
    requires Inv(s) && f < |s.pc| && s.pc[f].Parked? && s.b.place[f].Ready?
    ensures Inv(Goto(s.(b := Wake(s.b, f)), f, Resumed(s.pc[f].n)))
  {
    var b, pc := Wake(s.b, f), Resumed(s.pc[f].n);
    var s' := Goto(s.(b := b), f, pc);
    var t := if QueuePc(s).SetTail? then Lags else Right;
    assert ListOk(b, |s.pc|) && TailOk(b, t) by { PlaceKeeps(s.b, |s.pc|, f, t); }
    assert PcOk(s.word, b, |s.pc|, f, pc);
    assert PcsOk(s.word, b, s'.pc) by { WakeKeepsOthers(s, f); }
    HoldsNeither(s.pc[f]);
    LocksStay(s, s', f);
    PlacesStep(s.b, b, s.pc, f, pc);
    ResumeKeepsHeir(s, f, b, pc);
  }

  lemma WakeKeepsOthers(s: State, f: nat)
    requires Sizes(s.b, |s.pc|) && PcsOk(s.word, s.b, s.pc) && f < |s.pc| && s.b.place[f].Ready?
    ensures forall g | 0 <= g < |s.pc| && g != f :: PcOk(s.word, Wake(s.b, f), |s.pc|, g, s.pc[g])
  {
    forall g | 0 <= g < |s.pc| && g != f
      ensures PcOk(s.word, Wake(s.b, f), |s.pc|, g, s.pc[g])
    {
      assert PcOk(s.word, s.b, |s.pc|, g, s.pc[g]);
      HandIsTheirs(s.word, s.b, |s.pc|, g, s.pc[g]);
      PlaceKeepsPc(s.word, s.b, |s.pc|, g, s.pc[g], f, Awake);
    }
  }

  lemma ResumeKeepsHeir(s: State, f: nat, b: Bundles, pc: Pc)
    requires Sizes(s.b, |s.pc|) && Sizes(b, |s.pc|) && HeirOk(s) && f < |s.pc| && pc.Resumed?
    requires b.queue == s.b.queue && b.place == s.b.place[f := Awake]
    ensures HeirOk(Goto(s.(b := b), f, pc))
  {
  }

  lemma StepKeepsInv(s: State, a: Action)
    requires Inv(s)
    ensures Inv(Step(s, a))
  {
    if a.f < |s.pc| {
      match a
      case Start(f, call) => StartKeepsInv(s, f, call);
      case Run(f, ok) => RunKeepsInv(s, f, ok);
      case CleanUp(f) => if s.pc[f].Parked? { CleanUpKeepsInv(s, f); }
      case Resume(f) => if s.pc[f].Parked? && s.b.place[f].Ready? { ResumeKeepsInv(s, f); }
    }
  }

  lemma InitInv(ableToSpin: bool, fibers: nat)
    ensures Inv(Init(ableToSpin, fibers))
  {
  }

  // The invariant holds at the end of every run.
  lemma {:induction false} ExecKeepsInv(ableToSpin: bool, fibers: nat, acts: seq<Action>)
    ensures Inv(Exec(Init(ableToSpin, fibers), acts))
  {
    if acts == [] {
      InitInv(ableToSpin, fibers);
    } else {
      var before := acts[..|acts| - 1];
      ExecKeepsInv(ableToSpin, fibers, before);
      StepKeepsInv(Exec(Init(ableToSpin, fibers), before), acts[|acts| - 1]);
    }
  }

  // ---- What every run guarantees ----

  // At most one fiber is between acquiring and releasing the lock.
  lemma MutualExclusion(ableToSpin: bool, fibers: nat, acts: seq<Action>, f: nat, g: nat)
    requires var s := Exec(Init(ableToSpin, fibers), acts);
      f < |s.pc| && g < |s.pc| && HoldsLock(s.pc[f]) && HoldsLock(s.pc[g])
    ensures f == g && Exec(Init(ableToSpin, fibers), acts).word.locked
  {
    ExecKeepsInv(ableToSpin, fibers, acts);
  }

  // The assertions in the source, each where its fiber is about to evaluate it.
  ghost predicate AssertionsHold(s: State, f: nat)
    requires f < |s.pc| && Sizes(s.b, |s.pc|)
  {
    match s.pc[f]
    case SlowCas(_, w) => !w.queueLocked
    case ReloadFull(_) => s.word.head.Some? && s.word.queueLocked && s.word.locked
    case ReloadEmpty(_) => s.word.head.None? && s.word.queueLocked && s.word.locked
    case Resumed(_) => s.b.next[f] == None && s.b.tail[f] == None
    case UnlockTop =>
      s.word.locked && (s.word != ONLY_LOCKED && !s.word.queueLocked ==> s.word.head.Some?)
    case UnlockLoad => s.word.locked && s.word.queueLocked && s.word.head.Some?
    case UnlockReload(h, _) => s.word.locked && s.word.queueLocked && s.word.head == Some(h)
    case _ => true
  }

  lemma EveryAssertionHolds(ableToSpin: bool, fibers: nat, acts: seq<Action>, f: nat)
    requires f < |Exec(Init(ableToSpin, fibers), acts).pc|
    ensures var s := Exec(Init(ableToSpin, fibers), acts);
      Sizes(s.b, |s.pc|) && AssertionsHold(s, f)
  {
    ExecKeepsInv(ableToSpin, fibers, acts);
    var s := Exec(Init(ableToSpin, fibers), acts);
    Facts(s, f);
    assert PcOk(s.word, s.b, |s.pc|, f, s.pc[f]);
  }

  predicate StoresWord(pc: Pc) {
    pc.StoreFull? || pc.StoreEmpty? || pc.UnlockStore?
  }

  // While the queue bit is set nobody but its holder changes the word, and the holder only by the
  // store that clears the bit, computed from the word as it still is.
  lemma NoLostUpdate(ableToSpin: bool, fibers: nat, acts: seq<Action>, a: Action)
    requires Exec(Init(ableToSpin, fibers), acts).word.queueLocked
    ensures var s := Exec(Init(ableToSpin, fibers), acts);
      && s.word.locked && s.queueOwner.Some? && s.queueOwner.value < |s.pc|
      && (Step(s, a).word != s.word ==> a.Run? && a.f == s.queueOwner.value && StoresWord(s.pc[a.f]))
      && (StoresWord(s.pc[s.queueOwner.value]) ==> s.pc[s.queueOwner.value].w == s.word)
  {
    ExecKeepsInv(ableToSpin, fibers, acts);
    var s := Exec(Init(ableToSpin, fibers), acts);
    BusyFiber(s);
    if Step(s, a).word != s.word {
      OnlyRunsChangeWord(s, a);
      StepWord(s, a.f, a.ok);
    }
  }

  lemma BusyFiber(s: State)
    requires Inv(s) && s.word.queueLocked
    ensures s.word.locked && s.queueOwner.Some? && s.queueOwner.value < |s.pc|
    ensures StoresWord(s.pc[s.queueOwner.value]) ==> s.pc[s.queueOwner.value].w == s.word
  {
    QueueFacts(s, s.queueOwner.value);
  }

  lemma OnlyRunsChangeWord(s: State, a: Action)
    requires Step(s, a).word != s.word
    ensures a.Run? && a.f < |s.pc| && Step(s, a) == RunStep(s, a.f, a.ok)
  {
  }

  lemma StepWord(s: State, f: nat, ok: bool)
    requires Inv(s) && f < |s.pc| && s.word.queueLocked && RunStep(s, f, ok).word != s.word
    ensures s.queueOwner == Some(f) && StoresWord(s.pc[f])
  {
    Facts(s, f);
    assert CapturesUnlocked(s.pc[f]) by { assert PcOk(s.word, s.b, |s.pc|, f, s.pc[f]); }
    OnlyStoresChangeWord(s, f, ok);
  }

  // No compare-exchange expects a word whose queue bit is set.
  predicate CapturesUnlocked(pc: Pc) {
    pc.SlowCas? || pc.TryCas? || pc.QueueCas? || pc.UnlockQueueCas? ==> !pc.w.queueLocked
  }

  lemma OnlyStoresChangeWord(s: State, f: nat, ok: bool)
    requires f < |s.pc| && s.word.queueLocked && CapturesUnlocked(s.pc[f]) && RunStep(s, f, ok).word != s.word
    ensures StoresWord(s.pc[f]) && HoldsQueue(s.pc[f])
  {
  }

  // Between enqueues and dequeues the list is a queue: following Next from the word's head visits
  // every listed fiber once, in the order they were enqueued, and the head's QueueTail is the last.
  lemma ListIsQueue(ableToSpin: bool, fibers: nat, acts: seq<Action>, steps: nat)
    requires var s := Exec(Init(ableToSpin, fibers), acts); !s.word.queueLocked && steps >= |s.b.queue|
    ensures var s := Exec(Init(ableToSpin, fibers), acts);
      && Follow(s.b.next, s.word.head, steps) == s.b.queue
      && NoDuplicates(s.b.queue)
      && (s.word.head.Some? ==> LinkAt(s.b.tail, s.word.head.value) == Last(s.b.queue))
      && (forall f | 0 <= f < |s.pc| :: f in s.b.queue <==> LinkedFiber(s, f))
  {
    ExecKeepsInv(ableToSpin, fibers, acts);
    var s := Exec(Init(ableToSpin, fibers), acts);
    FollowVisitsQueue(s.b.next, s.b.queue, steps);
    forall f | f in s.b.queue
      ensures f < |s.pc| && s.b.place[f] == Queued
    {
      var i :| 0 <= i < |s.b.queue| && s.b.queue[i] == f;
    }
  }

  ghost predicate LinkedFiber(s: State, f: nat) {
    f < |s.b.place| && s.b.place[f] == Queued
  }

  // The queue changes only by LockSlow adding its fiber at the back and UnlockSlow removing the front.
  lemma QueueIsFifo(ableToSpin: bool, fibers: nat, acts: seq<Action>, a: Action)
    ensures var s := Exec(Init(ableToSpin, fibers), acts);
      var q, q' := s.b.queue, Step(s, a).b.queue;
      q' == q || (a.Run? && a.f < |s.pc| &&
        if s.pc[a.f].UnlockStore? then q == [s.pc[a.f].h] + q'
        else q' == q + [a.f] && a.f !in q && (s.pc[a.f].LinkNext? || s.pc[a.f].SelfTail?))
  {
    ExecKeepsInv(ableToSpin, fibers, acts);
    var s := Exec(Init(ableToSpin, fibers), acts);
    QueueChanges(s, a);
    if Step(s, a).b.queue != s.b.queue {
      if s.pc[a.f].UnlockStore? { Removes(s, a.f); } else { Appends(s, a.f); }
    }
  }

  lemma QueueChanges(s: State, a: Action)
    ensures var q, q' := s.b.queue, Step(s, a).b.queue;
      q' == q || (a.Run? && a.f < |s.pc| &&
        if s.pc[a.f].UnlockStore? then |q| > 0 && q' == q[1..]
        else q' == q + [a.f] && (s.pc[a.f].LinkNext? || s.pc[a.f].SelfTail?))
  {
  }

  lemma Appends(s: State, f: nat)
    requires Inv(s) && f < |s.pc| && (s.pc[f].LinkNext? || s.pc[f].SelfTail?)
    ensures f !in s.b.queue
  {
    QueueFacts(s, f);
  }

  lemma Removes(s: State, f: nat)
    requires Inv(s) && f < |s.pc| && s.pc[f].UnlockStore?
    ensures |s.b.queue| > 0 && s.b.queue == [s.pc[f].h] + s.b.queue[1..]
  {
    QueueFacts(s, f);
    DropFront(s.b.next, s.b.queue);
  }

  // No lost wake-up: while fibers wait in the queue, either the lock is held (and its holder will
  // dequeue one), or the heir, the fiber dequeued last, is on its way to try for the lock.
  lemma NoLostWakeUp(ableToSpin: bool, fibers: nat, acts: seq<Action>)
    ensures var s := Exec(Init(ableToSpin, fibers), acts);
      && Sizes(s.b, |s.pc|)
      && (|s.b.queue| > 0 && !s.word.locked ==> s.heir.Some? && WillContend(s, s.heir.value))
  {
    ExecKeepsInv(ableToSpin, fibers, acts);
  }

  // The heir changes only when UnlockSlow dequeues, and is then the fiber it dequeued.
  lemma HeirIsLastDequeued(ableToSpin: bool, fibers: nat, acts: seq<Action>, a: Action)
    requires var s := Exec(Init(ableToSpin, fibers), acts); Step(s, a).heir != s.heir
    ensures var s := Exec(Init(ableToSpin, fibers), acts);
      && a.Run? && a.f < |s.pc| && s.pc[a.f].UnlockStore?
      && Step(s, a).heir == Some(s.pc[a.f].h) && Head(s.b.queue) == Some(s.pc[a.f].h)
  {
    ExecKeepsInv(ableToSpin, fibers, acts);
    var s := Exec(Init(ableToSpin, fibers), acts);
    OnlyDequeuesChangeHeir(s, a);
    QueueFacts(s, a.f);
  }

  lemma OnlyDequeuesChangeHeir(s: State, a: Action)
    requires Step(s, a).heir != s.heir
    ensures a.Run? && a.f < |s.pc| && s.pc[a.f].UnlockStore? && Step(s, a).heir == Some(s.pc[a.f].h)
  {
  }

  // A fiber that has switched away is on the list, with exactly one unlocker, or ready.
  lemma ParkedFiberIsSomewhere(ableToSpin: bool, fibers: nat, acts: seq<Action>, f: nat)
    requires var s := Exec(Init(ableToSpin, fibers), acts); f < |s.pc| && s.pc[f].Parked?
    ensures var s := Exec(Init(ableToSpin, fibers), acts);
      && Sizes(s.b, |s.pc|)
      && match s.b.place[f] {
           case Awake => false
           case Queued => f in s.b.queue
           case Hands(u) => u < |s.pc| && forall v | 0 <= v < |s.pc| :: InHand(s.pc[v]) == Some(f) <==> v == u
           case Ready => forall v | 0 <= v < |s.pc| :: InHand(s.pc[v]) != Some(f)
         }
  {
    ExecKeepsInv(ableToSpin, fibers, acts);
    var s := Exec(Init(ableToSpin, fibers), acts);
    assert PcOk(s.word, s.b, |s.pc|, f, s.pc[f]);
    forall v | 0 <= v < |s.pc| && InHand(s.pc[v]) == Some(f)
      ensures s.b.place[f] == Hands(v)
    {
      assert PcOk(s.word, s.b, |s.pc|, v, s.pc[v]);
    }
  }
}

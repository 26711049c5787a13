/** Fibtex as an object: one word with the flags and the head's address in it, and bundles linked in
    place. Each method is one atomic step of one fiber, wherever that fiber is in lock, try_lock or
    unlock, and changes the object as FibtexMachine's Step changes its value; what every run of those
    steps guarantees is proved there. ok is whether a weak compare-exchange may succeed. */
module Fibtexes {
  import opened Options
  import opened WaiterList
  import opened PackedWords
  import opened FibtexMachine
  import WaiterNodes

  class Fibtex {
    const m_ableToSpin: bool
    var m_word: nat
    const bundles: WaiterNodes.BundleTable
    const address: seq<nat>
    // Where each fiber is in a call, with its locals; captured words are kept unpacked.
    var pc: seq<Pc>
    // What m_word packs.
    ghost var word: Word
    ghost var owner: Link
    ghost var queueOwner: Link
    ghost var heir: Link

    ghost predicate Valid()
      reads this, bundles, bundles.nodes
    {
      && bundles.Valid() && |address| == |pc| == |bundles.nodes| && AddressesOk(address)
      && Fits(address, word.head) && m_word == Pack(address, word)
      && AllFit(address, pc)
    }

    ghost function Value(): State
      reads this, bundles, bundles.nodes
    {
      State(m_ableToSpin, word, pc, bundles.Value(), owner, queueOwner, heir)
    }

    constructor (ableToSpin: bool, addresses: seq<nat>)
      requires AddressesOk(addresses)
      ensures Valid() && fresh(bundles) && fresh(bundles.nodes) && Value() == Init(ableToSpin, |addresses|)
    {
      m_ableToSpin := ableToSpin;
      m_word := 0;
      bundles := new WaiterNodes.BundleTable(|addresses|);
      address := addresses;
      pc := seq(|addresses|, _ => Out);
      word, owner, queueOwner, heir := FREE, None, None, None;
    }

    method Goto(f: nat, next: Pc)
      requires Valid() && f < |pc| && LocalsFit(address, next)
      modifies `pc
      ensures Valid() && Value() == FibtexMachine.Goto(old(Value()), f, next)
    {
      pc := pc[f := next];
    }

    // A weak compare-exchange of m_word from expected, which packs `from`, to desired, which packs `to`.
    method CompareExchange(expected: nat, desired: nat, ok: bool, ghost from: Word, ghost to: Word)
        returns (swapped: bool)
      requires Valid() && Fits(address, from.head) && Fits(address, to.head)
      requires expected == Pack(address, from) && desired == Pack(address, to)
      modifies `m_word, `word
      ensures Valid() && (swapped <==> ok && old(word) == from)
      ensures word == (if swapped then to else old(word)) && Value() == old(Value()).(word := word)
    {
      PackIsInjective(address, word, from);
      swapped := ok && m_word == expected;
      if swapped {
        m_word := desired;
        word := to;
      }
    }

    // A plain store of what packs `to`.
    method Store(desired: nat, ghost to: Word)
      requires Valid() && Fits(address, to.head) && desired == Pack(address, to)
      modifies `m_word, `word
      ensures Valid() && word == to && Value() == old(Value()).(word := to)
    {
      m_word := desired;
      word := to;
    }

    // A load of m_word, unpacked.
    method Load() returns (w: Word)
      requires Valid()
      ensures w == word
    {
      UnpackPack(address, word);
      w := Unpack(address, m_word);
    }

    // ---- lock, try_lock and LockSlow ----

    // What the fiber does once its word for the lock has been refused.
    method SpinOrQueue(f: nat, n: nat, currentWordValue: nat)
      requires Valid() && f < |pc| && currentWordValue == m_word
      modifies `pc
      ensures Valid() && Value() == FibtexMachine.SpinOrQueue(old(Value()), f, n, word)
    {
      var _, _, queued := Test(address, currentWordValue, word);
      if m_ableToSpin && !queued && n < SPIN_LIMIT {
        Goto(f, SlowTop(n + 1));
      } else {
        Goto(f, SlowReload(n));
      }
    }

    // The compare-exchange that takes the lock; else the fiber goes on at next.
    method TakeLock(f: nat, expected: nat, ok: bool, next: Pc, ghost from: Word) returns (taken: bool)
      requires Valid() && f < |pc| && Fits(address, from.head) && expected == Pack(address, from)
        && LocalsFit(address, next)
      modifies `m_word, `word, `pc, `owner
      ensures Valid() && (taken <==> ok && old(word) == from)
      ensures Value() == if taken then FibtexMachine.Acquire(old(Value()), f)
        else FibtexMachine.Goto(old(Value()), f, next)
    {
      var desired := WithLock(address, expected, from);
      taken := CompareExchange(expected, desired, ok, from, from.(locked := true));
      if taken {
        Goto(f, Holding);
        owner := Some(f);
      } else {
        Goto(f, next);
      }
    }

    // The compare-exchange that takes the queue lock.
    method TakeQueueLock(f: nat, expected: nat, ok: bool, taking: Pc, failing: Pc, ghost from: Word)
      requires Valid() && f < |pc| && Fits(address, from.head) && expected == Pack(address, from)
      requires LocalsFit(address, taking) && LocalsFit(address, failing)
      modifies `m_word, `word, `pc, `queueOwner
      ensures Valid() && Value() == if ok && old(word) == from
        then FibtexMachine.Goto(old(Value()).(word := from.(queueLocked := true), queueOwner := Some(f)), f, taking)
        else FibtexMachine.Goto(old(Value()), f, failing)
    {
      var desired := WithQueueLock(address, expected, from);
      var taken := CompareExchange(expected, desired, ok, from, from.(queueLocked := true));
      if taken {
        queueOwner := Some(f);
        Goto(f, taking);
      } else {
        Goto(f, failing);
      }
    }

    // The loads of m_word that decide what to try.
    method LoadStep(f: nat)
      requires Valid() && f < |pc| && (pc[f].SlowTop? || pc[f].SlowReload? || pc[f].TryLoad?)
      modifies `pc
      ensures Valid() && Value() == FibtexMachine.LockStep(old(Value()), f, true)
    {
      var currentWordValue := m_word;
      var w := Load();
      var locked, queueLocked, _ := Test(address, currentWordValue, word);
      match pc[f] {
        case SlowTop(n) =>
          if !locked { Goto(f, SlowCas(n, w)); } else { SpinOrQueue(f, n, currentWordValue); }
        case SlowReload(n) =>
          Goto(f, if queueLocked || !locked then SlowTop(n) else QueueCas(n, w));
        case TryLoad =>
          Goto(f, if !locked then TryCas(w) else Out);
      }
    }

    // The compare-exchanges on 0 in lock and try_lock.
    method FastStep(f: nat, ok: bool)
      requires Valid() && f < |pc| && (pc[f].LockFast? || pc[f].TryFast?)
      modifies `m_word, `word, `pc, `owner
      ensures Valid() && Value() == FibtexMachine.LockStep(old(Value()), f, ok)
    {
      var _ := TakeLock(f, 0, ok, if pc[f].LockFast? then SlowTop(0) else TryLoad, FREE);
    }

    // Those on the word just read.
    method SlowStep(f: nat, ok: bool)
      requires Valid() && f < |pc| && (pc[f].SlowCas? || pc[f].TryCas?)
      modifies `m_word, `word, `pc, `owner
      ensures Valid() && Value() == FibtexMachine.LockStep(old(Value()), f, ok)
    {
      assert LocalsFit(address, pc[f]);
      match pc[f] {
        case SlowCas(n, w) =>
          var taken := TakeLock(f, Pack(address, w), ok, pc[f], w);
          if !taken { SpinOrQueue(f, n, m_word); }
        case TryCas(w) => var _ := TakeLock(f, Pack(address, w), ok, Out, w);
      }
    }

    method QueueLockStep(f: nat, ok: bool)
      requires Valid() && f < |pc| && pc[f].QueueCas?
      modifies `m_word, `word, `pc, `queueOwner
      ensures Valid() && Value() == FibtexMachine.LockStep(old(Value()), f, ok)
    {
      var n, w := pc[f].n, pc[f].w;
      assert LocalsFit(address, pc[f]);
      TakeQueueLock(f, Pack(address, w), ok, InitBundle(n, w.head), SlowTop(n), w);
    }

    method LockStep(f: nat, ok: bool)
      requires Valid() && f < |pc| && !InEnqueue(pc[f]) && !InUnlock(pc[f])
      modifies this
      ensures Valid() && Value() == FibtexMachine.LockStep(old(Value()), f, ok)
    {
      match pc[f] {
        case LockFast => FastStep(f, ok);
        case TryFast => FastStep(f, ok);
        case SlowTop(_) => LoadStep(f);
        case SlowReload(_) => LoadStep(f);
        case TryLoad => LoadStep(f);
        case SlowCas(_, _) => SlowStep(f, ok);
        case TryCas(_) => SlowStep(f, ok);
        case QueueCas(_, _) => QueueLockStep(f, ok);
        case Resumed(n) => Goto(f, SlowTop(n));
        case _ =>
      }
    }

    // ---- LockSlow, once it holds the queue lock ----

    // pinned is the thread to resume on, if the caller asked for its own.
    method InitStep(f: nat, pinned: Link)
      requires Valid() && f < |pc| && (pc[f].InitBundle? || pc[f].SelfTail?)
      modifies `pc, bundles, bundles.nodes
      ensures Valid() && Value() == FibtexMachine.EnqueueStep(old(Value()), f)
      ensures old(pc[f].InitBundle?) ==> bundles.nodes[f].PinnedThreadIndex == pinned
    {
      assert LocalsFit(address, pc[f]);
      match pc[f] {
        case InitBundle(n, head) =>
          bundles.Initialise(f, pinned);
          Goto(f, if head.Some? then LinkNext(n, head.value) else SelfTail(n));
        case SelfTail(n) =>
          bundles.Found(f);
          Goto(f, ReloadEmpty(n));
      }
    }

    method LinkStep(f: nat)
      requires Valid() && f < |pc| && (pc[f].LinkNext? || pc[f].SetTail?)
      requires pc[f].LinkNext? ==> LinkAt(bundles.Value().tail, pc[f].h).Some?
      modifies `pc, bundles, bundles.nodes
      ensures Valid() && Value() == FibtexMachine.EnqueueStep(old(Value()), f)
    {
      assert LocalsFit(address, pc[f]);
      match pc[f] {
        case LinkNext(n, h) =>
          bundles.Append(h, f);
          Goto(f, SetTail(n, h));
        case SetTail(n, h) =>
          bundles.SetQueueTail(h, bundles.nodes[f]);
          Goto(f, ReloadFull(n));
      }
    }

    method ReloadStep(f: nat)
      requires Valid() && f < |pc| && (pc[f].ReloadFull? || pc[f].ReloadEmpty? || pc[f].SwitchAway?)
      modifies `pc
      ensures Valid() && Value() == FibtexMachine.EnqueueStep(old(Value()), f)
    {
      var w := Load();
      match pc[f] {
        case ReloadFull(n) => Goto(f, StoreFull(n, w));
        case ReloadEmpty(n) => Goto(f, StoreEmpty(n, w));
        case SwitchAway(n) => Goto(f, Parked(n));
      }
    }

    // Storing the word with the queue lock released.
    method PublishStep(f: nat)
      requires Valid() && f < |pc| && (pc[f].StoreFull? || pc[f].StoreEmpty?)
      requires pc[f].StoreEmpty? ==> pc[f].w.head.None?
      modifies `m_word, `word, `pc, `queueOwner
      ensures Valid() && Value() == FibtexMachine.EnqueueStep(old(Value()), f)
    {
      assert LocalsFit(address, pc[f]);
      var n, w := pc[f].n, pc[f].w;
      if pc[f].StoreFull? {
        var newWordValue := WithoutQueueLock(address, Pack(address, w), w);
        Store(newWordValue, w.(queueLocked := false));
      } else {
        var newWordValue := WithFirst(address, Pack(address, w), f, w);
        Store(newWordValue, w.(queueLocked := false, head := Some(f)));
      }
      queueOwner := None;
      Goto(f, SwitchAway(n));
    }

    // ---- unlock and UnlockSlow ----

    // The compare-exchanges of a word that is only locked with 0.
    method ReleaseStep(f: nat, ok: bool)
      requires Valid() && f < |pc| && (pc[f].UnlockFast? || pc[f].UnlockCas?)
      modifies `m_word, `word, `pc, `owner
      ensures Valid() && Value() == FibtexMachine.UnlockStep(old(Value()), f, ok)
    {
      var released := CompareExchange(kIsLockedBit, 0, ok, ONLY_LOCKED, FREE);
      if released {
        owner := None;
        Goto(f, Out);
      } else {
        Goto(f, UnlockTop);
      }
    }

    method UnlockLoadStep(f: nat)
      requires Valid() && f < |pc| && (pc[f].UnlockTop? || pc[f].UnlockLoad? || pc[f].UnlockReload?)
      modifies `pc
      ensures Valid() && Value() == FibtexMachine.UnlockStep(old(Value()), f, true)
    {
      assert LocalsFit(address, pc[f]);
      var currentWordValue := m_word;
      var w := Load();
      var _, queueLocked, queued := Test(address, currentWordValue, word);
      PackIsInjective(address, word, ONLY_LOCKED);
      match pc[f] {
        case UnlockTop =>
          Goto(f, if currentWordValue == kIsLockedBit then UnlockCas
                  else if queueLocked then UnlockTop else UnlockQueueCas(w));
        case UnlockLoad =>
          if queued { Goto(f, ReadNext(w.head.value)); }
        case UnlockReload(h, rest) => Goto(f, UnlockStore(w, h, rest));
      }
    }

    method UnlockQueueStep(f: nat, ok: bool)
      requires Valid() && f < |pc| && pc[f].UnlockQueueCas?
      modifies `m_word, `word, `pc, `queueOwner
      ensures Valid() && Value() == FibtexMachine.UnlockStep(old(Value()), f, ok)
    {
      var w := pc[f].w;
      assert LocalsFit(address, pc[f]);
      TakeQueueLock(f, Pack(address, w), ok, UnlockLoad, UnlockTop, w);
    }

    // Reading the list's second bundle, and giving it the tail.
    method DequeueStep(f: nat)
      requires Valid() && f < |pc| && (pc[f].ReadNext? || pc[f].PassTail?)
      modifies `pc, bundles, bundles.nodes
      ensures Valid() && Value() == FibtexMachine.UnlockStep(old(Value()), f, true)
    {
      assert LocalsFit(address, pc[f]);
      match pc[f] {
        case ReadNext(h) =>
          var newQueueHead := bundles.nodes[h].Next;
          Goto(f, if newQueueHead != null then PassTail(h, newQueueHead.FiberIndex) else UnlockReload(h, None));
        case PassTail(h, x) =>
          bundles.SetQueueTail(x, bundles.nodes[h].QueueTail);
          Goto(f, UnlockReload(h, Some(x)));
      }
    }

    // The store that releases both locks and installs the new head.
    method UnlockStoreStep(f: nat)
      requires Valid() && f < |pc| && pc[f].UnlockStore?
      modifies `m_word, `word, `pc, `owner, `queueOwner, `heir, bundles
      ensures Valid() && Value() == FibtexMachine.UnlockStep(old(Value()), f, true)
    {
      var w, h, rest := pc[f].w, pc[f].h, pc[f].rest;
      assert LocalsFit(address, pc[f]);
      var newWordValue := Released(address, Pack(address, w), rest);
      Store(newWordValue, Word(false, false, rest));
      TakeOffList(f, h);
      Goto(f, UnlinkNext(h));
    }

    // That store's effect on the history.
    ghost method TakeOffList(f: nat, h: nat)
      requires Valid()
      modifies `owner, `queueOwner, `heir, bundles
      ensures Valid()
      ensures Value() == old(Value()).(owner := None, queueOwner := None, heir := Some(h),
                                       b := TakeFront(old(Value()).b, h, f))
    {
      owner, queueOwner, heir := None, None, Some(h);
      bundles.Unlist(h, f);
    }

    // The dequeued bundle forgets the list and is made ready.
    method UnlinkStep(f: nat)
      requires Valid() && f < |pc| && (pc[f].UnlinkNext? || pc[f].UnlinkTail? || pc[f].MakeReady?)
      modifies `pc, bundles, bundles.nodes
      ensures Valid() && Value() == FibtexMachine.UnlockStep(old(Value()), f, true)
    {
      assert LocalsFit(address, pc[f]);
      var h := pc[f].h;
      if pc[f].UnlinkNext? {
        bundles.ForgetNext(h);
        Goto(f, UnlinkTail(h));
      } else if pc[f].UnlinkTail? {
        bundles.ForgetTail(h);
        Goto(f, MakeReady(h));
      } else {
        bundles.Move(h, Ready);
        Goto(f, Out);
      }
    }

    // ---- Any step ----

    method EnqueueStep(f: nat, pinned: Link)
      requires Valid() && f < |pc| && InEnqueue(pc[f])
      requires pc[f].LinkNext? ==> LinkAt(bundles.Value().tail, pc[f].h).Some?
      requires pc[f].StoreEmpty? ==> pc[f].w.head.None?
      modifies this, bundles, bundles.nodes
      ensures Valid() && Value() == FibtexMachine.EnqueueStep(old(Value()), f)
      ensures old(pc[f].InitBundle?) ==> bundles.nodes[f].PinnedThreadIndex == pinned
    {
      if pc[f].InitBundle? || pc[f].SelfTail? { InitStep(f, pinned); }
      else if pc[f].LinkNext? || pc[f].SetTail? { LinkStep(f); }
      else if pc[f].StoreFull? || pc[f].StoreEmpty? { PublishStep(f); }
      else { ReloadStep(f); }
    }

    method UnlockStep(f: nat, ok: bool)
      requires Valid() && f < |pc| && InUnlock(pc[f])
      modifies this, bundles, bundles.nodes
      ensures Valid() && Value() == FibtexMachine.UnlockStep(old(Value()), f, ok)
    {
      if pc[f].UnlockFast? || pc[f].UnlockCas? { ReleaseStep(f, ok); }
      else if pc[f].UnlockTop? || pc[f].UnlockLoad? || pc[f].UnlockReload? { UnlockLoadStep(f); }
      else if pc[f].UnlockQueueCas? { UnlockQueueStep(f, ok); }
      else if pc[f].ReadNext? || pc[f].PassTail? { DequeueStep(f); }
      else if pc[f].UnlockStore? { UnlockStoreStep(f); }
      else { UnlinkStep(f); }
    }

    // Starting a call, and what the scheduler does: it resumes only bundles it has been handed.
    method SchedulerStep(a: Action)
      requires Valid() && a.f < |pc| && !a.Run? && (a.Resume? ==> bundles.place[a.f].Ready?)
      modifies this, bundles, bundles.nodes
      ensures Valid() && Value() == FibtexMachine.Step(old(Value()), a)
    {
      match a
      case Start(f, call) =>
        if call.Unlock? && pc[f].Holding? { Goto(f, UnlockFast); }
        else if !call.Unlock? && pc[f].Out? { Goto(f, if call.Lock? then LockFast else TryFast); }
      case CleanUp(f) => if pc[f].Parked? { bundles.SetSwitched(f); }
      case Resume(f) =>
        if pc[f].Parked? && bundles.nodes[f].FiberIsSwitched {
          bundles.Move(f, Awake);
          Goto(f, Resumed(pc[f].n));
        }
    }

    // Every step of every fiber, made where the machine's invariant holds, keeps it.
    method Step(a: Action, pinned: Link)
      requires Valid() && a.f < |pc| && Inv(Value()) && (a.Resume? ==> bundles.place[a.f].Ready?)
      modifies this, bundles, bundles.nodes
      ensures Valid() && Value() == FibtexMachine.Step(old(Value()), a) && Inv(Value())
      ensures a.Run? && old(pc[a.f].InitBundle?) ==> bundles.nodes[a.f].PinnedThreadIndex == pinned
    {
      StepKeepsInv(Value(), a);
      if a.Run? {
        ReliesOn(Value(), a.f);
        if InEnqueue(pc[a.f]) { EnqueueStep(a.f, pinned); }
        else if InUnlock(pc[a.f]) { UnlockStep(a.f, a.ok); }
        else { LockStep(a.f, a.ok); }
      } else {
        SchedulerStep(a);
      }
    }
  }

  // What the code takes for granted when it links itself behind the head, or becomes the head.
  lemma ReliesOn(s: State, f: nat)
    requires Inv(s) && f < |s.pc|
    ensures s.pc[f].LinkNext? ==> LinkAt(s.b.tail, s.pc[f].h).Some?
    ensures s.pc[f].StoreEmpty? ==> s.pc[f].w.head.None?
  {
    Facts(s, f);
    assert PcOk(s.word, s.b, |s.pc|, f, s.pc[f]);
  }

  ghost predicate AllFit(address: seq<nat>, pcs: seq<Pc>) {
    forall f {:trigger LocalsFit(address, pcs[f])} | 0 <= f < |pcs| :: LocalsFit(address, pcs[f])
  }

  // Bundles that a fiber's locals point to exist.
  predicate LocalsFit(address: seq<nat>, pc: Pc) {
    match pc
    case SlowCas(_, w) => Fits(address, w.head)
    case QueueCas(_, w) => Fits(address, w.head)
    case InitBundle(_, head) => Fits(address, head)
    case LinkNext(_, h) => h < |address|
    case SetTail(_, h) => h < |address|
    case StoreFull(_, w) => Fits(address, w.head)
    case StoreEmpty(_, w) => Fits(address, w.head)
    case TryCas(w) => Fits(address, w.head)
    case UnlockQueueCas(w) => Fits(address, w.head)
    case ReadNext(h) => h < |address|
    case PassTail(h, x) => h < |address| && x < |address|
    case UnlockReload(h, rest) => h < |address| && Fits(address, rest)
    case UnlockStore(w, h, rest) => Fits(address, w.head) && h < |address| && Fits(address, rest)
    case UnlinkNext(h) => h < |address|
    case UnlinkTail(h) => h < |address|
    case MakeReady(h) => h < |address|
    case _ => true
  }
}

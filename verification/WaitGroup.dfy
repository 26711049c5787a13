/** WaitGroup as an object: a counter, one word with the queue lock and the head's address in it, and
    bundles linked in place. As in Fibtexes each method is one atomic step of one fiber, wherever that
    fiber is in Add or Wait, and changes the object as WaitGroupMachine's Step changes its value. */
module WaitGroups {
  import opened Options
  import opened WaiterList
  import opened WaitGroupMachine
  import WaiterNodes
  import Addresses = PackedWords

  const kIsQueueLockedBit: nat := 1
  const kQueueHeadMask: nat := 1

  function Pack(address: seq<nat>, w: Word): nat
    requires Addresses.Fits(address, w.head)
  {
    Addresses.AddressOf(address, w.head) + if w.queueLocked then kIsQueueLockedBit else 0
  }

  function Unpack(address: seq<nat>, m: nat): (w: Word)
    ensures Addresses.Fits(address, w.head)
  {
    Word(m % 2 == 1, Addresses.BundleAt(address, m - m % 2))
  }

  lemma LowFlag(a: nat, bit: nat)
    requires a % 4 == 0 && bit < 2
    ensures (a + bit) % 2 == bit && (a + bit) - (a + bit) % 2 == a
  {
    var q := a / 4;
    assert a == 4 * q;
    EvenPlus(2 * q, bit);
  }

  lemma EvenPlus(h: nat, bit: nat)
    requires bit < 2
    ensures (2 * h + bit) % 2 == bit
  {
  }

  // What the source's masks find in m_word.
  lemma WordParts(address: seq<nat>, w: Word)
    requires Addresses.AddressesOk(address) && Addresses.Fits(address, w.head)
    ensures Pack(address, w) % 2 == (if w.queueLocked then 1 else 0)
    ensures Pack(address, w) - Pack(address, w) % 2 == Addresses.AddressOf(address, w.head)
    ensures Addresses.AddressOf(address, w.head) == 0 <==> w.head == None
  {
    Addresses.AddressRoundTrip(address, w.head);
    LowFlag(Addresses.AddressOf(address, w.head), if w.queueLocked then kIsQueueLockedBit else 0);
  }

  lemma UnpackPack(address: seq<nat>, w: Word)
    requires Addresses.AddressesOk(address) && Addresses.Fits(address, w.head)
    ensures Unpack(address, Pack(address, w)) == w
  {
    WordParts(address, w);
    Addresses.AddressRoundTrip(address, w.head);
  }

  lemma PackIsInjective(address: seq<nat>, v: Word, w: Word)
    requires Addresses.AddressesOk(address) && Addresses.Fits(address, v.head) && Addresses.Fits(address, w.head)
    ensures Pack(address, v) == Pack(address, w) <==> v == w
  {
    UnpackPack(address, v);
    UnpackPack(address, w);
  }

  // currentWordValue & kIsQueueLockedBit.
  method Test(address: seq<nat>, currentWordValue: nat, ghost w: Word) returns (queueLocked: bool)
    requires Addresses.AddressesOk(address) && Addresses.Fits(address, w.head) && currentWordValue == Pack(address, w)
    ensures queueLocked == w.queueLocked
  {
    WordParts(address, w);
    var bit0, _, _ := Addresses.Masks(currentWordValue);
    queueLocked := bit0 == kIsQueueLockedBit;
  }

  // currentWordValue | kIsQueueLockedBit,
  method WithQueueLock(address: seq<nat>, currentWordValue: nat, ghost w: Word) returns (newWordValue: nat)
    requires Addresses.AddressesOk(address) && Addresses.Fits(address, w.head) && currentWordValue == Pack(address, w)
    ensures newWordValue == Pack(address, w.(queueLocked := true))
  {
    WordParts(address, w);
    newWordValue := Addresses.SetBit0(currentWordValue);
  }

  // & ~kIsQueueLockedBit,
  method WithoutQueueLock(address: seq<nat>, currentWordValue: nat, ghost w: Word) returns (newWordValue: nat)
    requires Addresses.AddressesOk(address) && Addresses.Fits(address, w.head) && currentWordValue == Pack(address, w)
    ensures newWordValue == Pack(address, w.(queueLocked := false))
  {
    WordParts(address, w);
    newWordValue := Addresses.ClearBit0(currentWordValue);
  }

  // and installing the first waiter.
  method WithFirst(address: seq<nat>, currentWordValue: nat, f: nat, ghost w: Word) returns (newWordValue: nat)
    requires Addresses.AddressesOk(address) && w.head.None? && f < |address| && currentWordValue == Pack(address, w)
    ensures newWordValue == Pack(address, w.(queueLocked := false, head := Some(f)))
  {
    newWordValue := Addresses.OrAddress(currentWordValue, address[f]);
    ghost var queued := w.(head := Some(f));
    WordParts(address, queued);
    newWordValue := Addresses.ClearBit0(newWordValue);
  }

  ghost predicate AllFit(address: seq<nat>, pcs: seq<Pc>) {
    forall f {:trigger LocalsFit(address, pcs[f])} | 0 <= f < |pcs| :: LocalsFit(address, pcs[f])
  }

  // Bundles that a fiber's locals point to exist.
  predicate LocalsFit(address: seq<nat>, pc: Pc) {
    match pc
    case AddQueueCas(w) => Addresses.Fits(address, w.head)
    case Drain(head) => Addresses.Fits(address, head)
    case UnlinkNext(h, rest) => h < |address| && Addresses.Fits(address, rest)
    case UnlinkTail(h, rest) => h < |address| && Addresses.Fits(address, rest)
    case Pass(h, rest) => h < |address| && Addresses.Fits(address, rest)
    case WaitCas(w) => Addresses.Fits(address, w.head)
    case WaitUnlockStore(w) => Addresses.Fits(address, w.head)
    case InitBundle(w) => Addresses.Fits(address, w.head)
    case LinkNext(w, h) => Addresses.Fits(address, w.head) && h < |address|
    case SetTail(w, h) => Addresses.Fits(address, w.head) && h < |address|
    case StoreFull(w) => Addresses.Fits(address, w.head)
    case SelfTail(w) => Addresses.Fits(address, w.head)
    case StoreEmpty(w) => Addresses.Fits(address, w.head)
    case _ => true
  }

  class WaitGroup {
    var m_counter: int
    var m_word: nat
    const bundles: WaiterNodes.BundleTable
    const address: seq<nat>
    // Where each fiber is in a call, with its locals; captured words are kept unpacked.
    var pc: seq<Pc>
    // What m_word packs.
    ghost var word: Word
    ghost var queueOwner: Link

    ghost predicate Valid()
      reads this, bundles, bundles.nodes
    {
      && bundles.Valid() && |address| == |pc| == |bundles.nodes| && Addresses.AddressesOk(address)
      && Addresses.Fits(address, word.head) && m_word == Pack(address, word)
      && AllFit(address, pc)
    }

    ghost function Value(): State
      reads this, bundles, bundles.nodes
    {
      State(m_counter, word, pc, bundles.Value(), queueOwner)
    }

    constructor (addresses: seq<nat>)
      requires Addresses.AddressesOk(addresses)
      ensures Valid() && fresh(bundles) && fresh(bundles.nodes) && Value() == Init(|addresses|)
    {
      m_counter := 0;
      m_word := 0;
      bundles := new WaiterNodes.BundleTable(|addresses|);
      address := addresses;
      pc := seq(|addresses|, _ => Idle);
      word, queueOwner := FREE, None;
    }

    method Goto(f: nat, next: Pc)
      requires Valid() && f < |pc| && LocalsFit(address, next)
      modifies `pc
      ensures Valid() && Value() == WaitGroupMachine.Goto(old(Value()), f, next)
    {
      pc := pc[f := next];
    }

    // A load of m_word, unpacked.
    method Load() returns (w: Word)
      requires Valid()
      ensures w == word
    {
      UnpackPack(address, word);
      w := Unpack(address, m_word);
    }

    // A plain store, by the holder of the queue lock, of what packs `to`.
    method Store(f: nat, desired: nat, next: Pc, ghost to: Word)
      requires Valid() && f < |pc| && Addresses.Fits(address, to.head) && desired == Pack(address, to)
        && LocalsFit(address, next)
      modifies `m_word, `word, `pc, `queueOwner
      ensures Valid() && Value() == WaitGroupMachine.Store(old(Value()), f, to, next)
    {
      m_word := desired;
      word := to;
      queueOwner := None;
      pc := pc[f := next];
    }

    // The weak compare-exchange that takes the queue lock from a word that packs `from`.
    method TakeLock(f: nat, expected: nat, ok: bool, taking: Pc, failing: Pc, ghost from: Word)
      requires Valid() && f < |pc| && Addresses.Fits(address, from.head) && expected == Pack(address, from)
      requires LocalsFit(address, taking) && LocalsFit(address, failing)
      modifies `m_word, `word, `pc, `queueOwner
      ensures Valid() && Value() == if ok && old(word) == from
        then WaitGroupMachine.TakeLock(old(Value()), f, taking)
        else WaitGroupMachine.Goto(old(Value()), f, failing)
    {
      PackIsInjective(address, word, from);
      var desired := WithQueueLock(address, expected, from);
      if ok && m_word == expected {
        m_word := desired;
        word := from.(queueLocked := true);
        queueOwner := Some(f);
        pc := pc[f := taking];
      } else {
        pc := pc[f := failing];
      }
    }

    // ---- Add, once it has brought the counter to zero ----

    method AddStep(f: nat, ok: bool)
      requires Valid() && f < |pc| && InAdd(pc[f])
      modifies `m_word, `word, `pc, `queueOwner
      ensures Valid() && Value() == WaitGroupMachine.AddStep(old(Value()), f, ok)
    {
      assert LocalsFit(address, pc[f]);
      match pc[f] {
        case AddFast => TakeLock(f, 0, ok, AddRelease, AddTop, FREE);
        case AddTop => AddLoadStep(f);
        case AddCas => TakeLock(f, 0, ok, AddRelease, AddTop, FREE);
        case AddQueueCas(w) => TakeLock(f, Pack(address, w), ok, AddLoad, AddTop, w);
        case AddRelease => Store(f, 0, Idle, FREE);
      }
    }

    method AddLoadStep(f: nat)
      requires Valid() && f < |pc| && pc[f].AddTop?
      modifies `pc
      ensures Valid() && Value() == WaitGroupMachine.AddStep(old(Value()), f, true)
    {
      var currentWordValue := m_word;
      var w := Load();
      var queueLocked := Test(address, currentWordValue, word);
      PackIsInjective(address, word, FREE);
      Goto(f, if currentWordValue == 0 then AddCas else if queueLocked then AddTop else AddQueueCas(w));
    }

    // Resuming all waiters.
    method DrainStep(f: nat)
      requires Valid() && f < |pc| && Drains(pc[f])
      modifies this, bundles, bundles.nodes
      ensures Valid() && Value() == WaitGroupMachine.DrainStep(old(Value()), f)
    {
      assert LocalsFit(address, pc[f]);
      match pc[f] {
        case AddLoad =>
          var w := Load();
          Goto(f, Drain(w.head));
        case Drain(head) =>
          if head.None? {
            Store(f, 0, Idle, FREE);
          } else {
            var next := WaiterNodes.LinkOf(bundles.nodes[head.value].Next);
            bundles.Unlist(head.value, f);
            Goto(f, UnlinkNext(head.value, next));
          }
        case UnlinkNext(h, rest) =>
          bundles.ForgetNext(h);
          Goto(f, UnlinkTail(h, rest));
        case UnlinkTail(h, rest) =>
          bundles.ForgetTail(h);
          Goto(f, Pass(h, rest));
        case Pass(h, rest) =>
          bundles.Move(h, Ready);
          Goto(f, Drain(rest));
      }
    }

    // ---- Wait ----

    method WaitStep(f: nat, ok: bool)
      requires Valid() && f < |pc| && !InAdd(pc[f]) && !Drains(pc[f]) && !Enqueues(pc[f]) && !pc[f].SwitchAway?
      modifies `m_word, `word, `pc, `queueOwner
      ensures Valid() && Value() == WaitGroupMachine.WaitStep(old(Value()), f, ok)
    {
      assert LocalsFit(address, pc[f]);
      match pc[f] {
        case WaitTop => Goto(f, if m_counter == 0 then Idle else WaitLoad);
        case WaitLoad => WaitLoadStep(f);
        case WaitCas(w) => TakeLock(f, Pack(address, w), ok, WaitCheck, WaitTop, w);
        case WaitCheck => Goto(f, if m_counter == 0 then WaitUnlockLoad else WaitEnqueueLoad);
        case WaitUnlockLoad => WaitLoadStep(f);
        case WaitUnlockStore(w) =>
          var newWordValue := WithoutQueueLock(address, Pack(address, w), w);
          Store(f, newWordValue, Idle, w.(queueLocked := false));
        case Resumed => Goto(f, Idle);
        case _ =>
      }
    }

    method WaitLoadStep(f: nat)
      requires Valid() && f < |pc| && (pc[f].WaitLoad? || pc[f].WaitUnlockLoad?)
      modifies `pc
      ensures Valid() && Value() == WaitGroupMachine.WaitStep(old(Value()), f, true)
    {
      var currentWordValue := m_word;
      var w := Load();
      if pc[f].WaitLoad? {
        var queueLocked := Test(address, currentWordValue, word);
        Goto(f, if queueLocked then WaitTop else WaitCas(w));
      } else {
        Goto(f, WaitUnlockStore(w));
      }
    }

    // pinned is the thread to resume on, if the caller asked for its own.
    method InitStep(f: nat, pinned: Link)
      requires Valid() && f < |pc| && (pc[f].InitBundle? || pc[f].SelfTail?)
      modifies `pc, bundles, bundles.nodes
      ensures Valid() && Value() == WaitGroupMachine.EnqueueStep(old(Value()), f)
      ensures old(pc[f].InitBundle?) ==> bundles.nodes[f].PinnedThreadIndex == pinned
    {
      assert LocalsFit(address, pc[f]);
      var w := pc[f].w;
      if pc[f].InitBundle? {
        bundles.Initialise(f, pinned);
        Goto(f, if w.head.Some? then LinkNext(w, w.head.value) else SelfTail(w));
      } else {
        bundles.Found(f);
        Goto(f, StoreEmpty(w));
      }
    }

    method LinkStep(f: nat)
      requires Valid() && f < |pc| && (pc[f].LinkNext? || pc[f].SetTail?)
      requires pc[f].LinkNext? ==> LinkAt(bundles.Value().tail, pc[f].h).Some?
      modifies `pc, bundles, bundles.nodes
      ensures Valid() && Value() == WaitGroupMachine.EnqueueStep(old(Value()), f)
    {
      assert LocalsFit(address, pc[f]);
      var w, h := pc[f].w, pc[f].h;
      if pc[f].LinkNext? {
        bundles.Append(h, f);
        Goto(f, SetTail(w, h));
      } else {
        bundles.SetQueueTail(h, bundles.nodes[f]);
        Goto(f, StoreFull(w));
      }
    }

    method PublishStep(f: nat)
      requires Valid() && f < |pc|
      requires pc[f].WaitEnqueueLoad? || pc[f].StoreFull? || pc[f].StoreEmpty? || pc[f].SwitchAway?
      requires pc[f].StoreEmpty? ==> pc[f].w.head.None?
      modifies `m_word, `word, `pc, `queueOwner
      ensures Valid() && Value() == WaitGroupMachine.EnqueueStep(old(Value()), f)
    {
      assert LocalsFit(address, pc[f]);
      match pc[f] {
        case WaitEnqueueLoad =>
          var w := Load();
          Goto(f, InitBundle(w));
        case StoreFull(w) =>
          var newWordValue := WithoutQueueLock(address, Pack(address, w), w);
          Store(f, newWordValue, SwitchAway, w.(queueLocked := false));
        case StoreEmpty(w) =>
          var newWordValue := WithFirst(address, Pack(address, w), f, w);
          Store(f, newWordValue, SwitchAway, w.(queueLocked := false, head := Some(f)));
        case SwitchAway => Goto(f, Parked);
      }
    }

    // ---- Any step ----

    method RunStep(f: nat, ok: bool, pinned: Link)
      requires Valid() && f < |pc|
      requires pc[f].LinkNext? ==> LinkAt(bundles.Value().tail, pc[f].h).Some?
      requires pc[f].StoreEmpty? ==> pc[f].w.head.None?
      modifies this, bundles, bundles.nodes
      ensures Valid() && Value() == WaitGroupMachine.RunStep(old(Value()), f, ok)
      ensures old(pc[f].InitBundle?) ==> bundles.nodes[f].PinnedThreadIndex == pinned
    {
      if InAdd(pc[f]) { AddStep(f, ok); }
      else if Drains(pc[f]) { DrainStep(f); }
      else if pc[f].InitBundle? || pc[f].SelfTail? { InitStep(f, pinned); }
      else if pc[f].LinkNext? || pc[f].SetTail? { LinkStep(f); }
      else if Enqueues(pc[f]) || pc[f].SwitchAway? { PublishStep(f); }
      else { WaitStep(f, ok); }
    }

    // m_counter.fetch_add, and the branch on what it leaves.
    method Add(f: nat, delta: int)
      requires Valid() && f < |pc| && pc[f].Idle?
      modifies `m_counter, `pc
      ensures Valid() && Value() == WaitGroupMachine.Step(old(Value()), WaitGroupMachine.Add(f, delta))
    {
      m_counter := Wrap32(m_counter + delta);
      Goto(f, if m_counter > 0 then Idle else AddFast);
    }

    // Starting a Wait, and what the scheduler does: it resumes only bundles it has been handed.
    method SchedulerStep(a: Action)
      requires Valid() && a.f < |pc| && (a.StartWait? || a.CleanUp? || (a.Resume? && bundles.place[a.f].Ready?))
      modifies `pc, bundles, bundles.nodes
      ensures Valid() && Value() == WaitGroupMachine.Step(old(Value()), a)
    {
      match a
      case StartWait(f) => if pc[f].Idle? { Goto(f, WaitTop); }
      case CleanUp(f) => if pc[f].Parked? { bundles.SetSwitched(f); }
      case Resume(f) =>
        if pc[f].Parked? && bundles.nodes[f].FiberIsSwitched {
          bundles.Move(f, Awake);
          Goto(f, Resumed);
        }
    }

    // Every allowed step of every fiber, made where the machine's invariant holds, keeps it.
    method Step(a: Action, pinned: Link)
      requires Valid() && a.f < |pc| && Inv(Value()) && Allowed(Value(), a)
      requires a.Resume? ==> bundles.place[a.f].Ready?
      modifies this, bundles, bundles.nodes
      ensures Valid() && Value() == WaitGroupMachine.Step(old(Value()), a) && Inv(Value())
      ensures a.Run? && old(pc[a.f].InitBundle?) ==> bundles.nodes[a.f].PinnedThreadIndex == pinned
    {
      StepKeepsInv(Value(), a);
      ReliesOn(Value(), a.f);
      match a
      case Run(f, ok) => RunStep(f, ok, pinned);
      case Add(f, delta) => if pc[f].Idle? { Add(f, delta); }
      case _ => SchedulerStep(a);
    }
  }

  // What the code takes for granted when it links itself behind the head, or becomes the head.
  lemma ReliesOn(s: State, f: nat)
    requires Inv(s) && f < |s.pc|
    ensures s.pc[f].LinkNext? ==> LinkAt(s.b.tail, s.pc[f].h).Some?
    ensures s.pc[f].StoreEmpty? ==> s.pc[f].w.head.None?
  {
    Facts(s, f);
  }
}

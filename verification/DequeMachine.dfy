/** The work-stealing deque under every interleaving of one owner (Push, Pop) with any number of
    thieves (Steal). One step is one load, store or compare-exchange of a shared location; steps are
    sequentially consistent. A step that is not possible in a state leaves it unchanged, so a run is
    any sequence of actions.

    The last five fields of State are history: which push currently sits at each logical index, and
    which pushes have been handed out. No step's control flow depends on them; a Pop that takes what it
    has claimed looks at the claim only to be total. */
module DequeMachine {
  import opened Bits
  import opened Options

  // What the owner does next, with the locals it has already read.
  datatype Owner<T> =
    | Idle
    | PushTop(v: T, b: nat)
    | PushArray(v: T, b: nat, t: nat)
    | Grow(v: T, b: nat, t: nat, grown: seq<T>, i: nat)
    | PushPut(v: T, b: nat, a: nat)
    | PushPublish(v: T, b: nat)
    | PopArray(b: nat)
    | PopStore(b: nat, a: nat)
    | PopTop(b: nat, a: nat)
    | PopTake(b: nat, a: nat)
    | PopGetLast(b: nat, a: nat)
    | PopCas(b: nat, v: T)
    | PopRestore(b: nat, won: bool)

  datatype Thief<T> =
    | Away
    | StealBottom(t: nat)
    | StealArray(t: nat)
    | StealGet(t: nat, a: nat)
    | StealCas(t: nat, v: T)

  datatype State<T> = State(
    blank: T,                 // what a new array is filled with
    top: nat,
    bottom: nat,
    gens: seq<seq<T>>,        // every array so far; the last one is m_array, the others its m_previous chain
    owner: Owner<T>,
    thieves: seq<Thief<T>>,
    hist: seq<T>,             // every value pushed, in order; its position is the push's identity
    ids: seq<nat>,            // the push at each logical index; ids[top..] are the live ones
    claimed: Option<nat>,     // the push an unfinished Pop has secured without a compare-exchange
    outIds: seq<nat>,         // the pushes handed out by successful Pops and Steals
    outVals: seq<T>)          // and the values those calls returned

  datatype Action<T> = StartPush(v: T) | StartPop | OwnerStep | ThiefStep(i: nat)

  const FIRST_SIZE: nat := 32
  const TWO64: nat := 0x1_0000_0000_0000_0000

  function Init<T>(blank: T, thieves: nat): State<T> {
    State(blank, 1, 1, [seq(FIRST_SIZE, _ => blank)], Idle, seq(thieves, _ => Away), [], [0], None, [], [])
  }

  // uint64_t subtraction, wrapping below zero.
  function Sub64(x: nat, y: nat): nat {
    if y <= x then x - y else if y - x <= TWO64 then TWO64 - (y - x) else 0
  }

  function Get<T>(items: seq<T>, i: nat, blank: T): T {
    if |items| >= 1 && Slot(i, |items|) < |items| then items[Slot(i, |items|)] else blank
  }

  function Put<T>(items: seq<T>, i: nat, v: T): seq<T> {
    if |items| >= 1 && Slot(i, |items|) < |items| then items[Slot(i, |items|) := v] else items
  }

  function Array<T>(s: State<T>, a: nat): seq<T> {
    if a < |s.gens| then s.gens[a] else []
  }

  function At<T>(xs: seq<T>, i: nat, default: T): T {
    if i < |xs| then xs[i] else default
  }

  function Upto<T>(xs: seq<T>, i: nat): seq<T> {
    if i <= |xs| then xs[..i] else xs
  }

  function HandOut<T>(s: State<T>, id: nat, v: T): State<T> {
    s.(outIds := s.outIds + [id], outVals := s.outVals + [v])
  }

  // ---- The owner ----

  function PushStep<T>(s: State<T>): State<T> {
    match s.owner
    case PushTop(v, b) => s.(owner := PushArray(v, b, s.top))
    case PushArray(v, b, t) =>
      if |s.gens| == 0 then s else
      var a := |s.gens| - 1;
      var size := |s.gens[a]|;
      if Sub64(b, t) > Sub64(size, 1)
      then s.(owner := Grow(v, b, t, seq(2 * size, _ => s.blank), t))
      else s.(owner := PushPut(v, b, a))
    case Grow(v, b, t, grown, i) =>
      if |s.gens| == 0 then s else
      if i != b
      then s.(owner := Grow(v, b, t, Put(grown, i, Get(s.gens[|s.gens| - 1], i, s.blank)), i + 1))
      else s.(gens := s.gens + [grown], owner := PushPut(v, b, |s.gens|))
    case PushPut(v, b, a) =>
      if a < |s.gens| then s.(gens := s.gens[a := Put(s.gens[a], b, v)], owner := PushPublish(v, b)) else s
    case PushPublish(v, b) =>
      s.(bottom := b + 1, owner := Idle, hist := s.hist + [v], ids := Upto(s.ids, b) + [|s.hist|])
    case _ => s
  }

  function PopStep<T>(s: State<T>): State<T> {
    match s.owner
    case PopArray(b) => if |s.gens| == 0 then s else s.(owner := PopStore(b, |s.gens| - 1))
    case PopStore(b, a) => s.(bottom := b, owner := PopTop(b, a))
    case PopTop(b, a) =>
      if s.top < b then s.(owner := PopTake(b, a), claimed := Some(At(s.ids, b, 0)), ids := Upto(s.ids, b))
      else if s.top == b then s.(owner := PopGetLast(b, a))
      else s.(owner := PopRestore(b, false))
    case PopTake(b, a) =>
      if s.claimed.None? then s else
      HandOut(s, s.claimed.value, Get(Array(s, a), b, s.blank)).(owner := Idle, claimed := None)
    case PopGetLast(b, a) => s.(owner := PopCas(b, Get(Array(s, a), b, s.blank)))
    case PopCas(b, v) =>
      if s.top == b then HandOut(s, At(s.ids, b, 0), v).(top := b + 1, owner := PopRestore(b, true))
      else s.(owner := PopRestore(b, false))
    case PopRestore(b, won) => s.(bottom := b + 1, owner := Idle)
    case _ => s
  }

  // ---- The thieves ----

  function SetThief<T>(s: State<T>, i: nat, pc: Thief<T>): State<T>
    requires i < |s.thieves|
  {
    s.(thieves := s.thieves[i := pc])
  }

  function StealStep<T>(s: State<T>, i: nat): State<T>
    requires i < |s.thieves|
  {
    match s.thieves[i]
    case Away => SetThief(s, i, StealBottom(s.top))
    case StealBottom(t) => SetThief(s, i, if t < s.bottom then StealArray(t) else Away)
    case StealArray(t) => if |s.gens| == 0 then s else SetThief(s, i, StealGet(t, |s.gens| - 1))
    case StealGet(t, a) => SetThief(s, i, StealCas(t, Get(Array(s, a), t, s.blank)))
    case StealCas(t, v) =>
      if s.top == t then SetThief(HandOut(s, At(s.ids, t, 0), v).(top := t + 1), i, Away)
      else SetThief(s, i, Away)
  }

  function Step<T>(s: State<T>, a: Action<T>): State<T> {
    match a
    case StartPush(v) => if s.owner.Idle? then s.(owner := PushTop(v, s.bottom)) else s
    case StartPop => if s.owner.Idle? then s.(owner := PopArray(Sub64(s.bottom, 1))) else s
    case OwnerStep => if Pushing(s.owner) then PushStep(s) else PopStep(s)
    case ThiefStep(i) => if i < |s.thieves| then StealStep(s, i) else s
  }

  predicate Pushing<T>(o: Owner<T>) {
    o.PushTop? || o.PushArray? || o.Grow? || o.PushPut? || o.PushPublish?
  }

  // The state after a run.
  function Exec<T>(s: State<T>, acts: seq<Action<T>>): State<T> {
    if acts == [] then s else Step(Exec(s, acts[..|acts| - 1]), acts[|acts| - 1])
  }

  // ---- The invariant ----

  // Holds at index i the value of the push recorded there.
  ghost predicate Holds<T>(ids: seq<nat>, hist: seq<T>, items: seq<T>, i: nat, blank: T) {
    i < |ids| && ids[i] < |hist| && Get(items, i, blank) == hist[ids[i]]
  }

  ghost predicate ArraysOk<T>(s: State<T>) {
    && |s.gens| >= 1
    && (forall a | 0 <= a < |s.gens| :: |s.gens[a]| >= 1 && IsPow2(|s.gens[a]|))
    && (forall i: nat | s.top <= i < |s.ids| :: Holds(s.ids, s.hist, Last(s.gens), i, s.blank))
    && |s.ids| - s.top <= |Last(s.gens)|
  }

  function Last<T>(gens: seq<seq<T>>): seq<T>
    requires |gens| >= 1
  {
    gens[|gens| - 1]
  }

  ghost predicate OwnerOk<T>(s: State<T>)
    requires |s.gens| >= 1
  {
    && (s.claimed.Some? <==> s.owner.PopTake?)
    && match s.owner
       case Idle => s.bottom == |s.ids|
       case PushTop(v, b) => b == s.bottom == |s.ids|
       case PushArray(v, b, t) => b == s.bottom == |s.ids| && t <= s.top
       case Grow(v, b, t, grown, i) =>
         && b == s.bottom == |s.ids| && t <= s.top && t <= i <= b
         && |grown| == 2 * |Last(s.gens)|
         && (forall j: nat | s.top <= j < i :: Holds(s.ids, s.hist, grown, j, s.blank))
       case PushPut(v, b, a) => b == s.bottom == |s.ids| && a == |s.gens| - 1 && b - s.top < |Last(s.gens)|
       case PushPublish(v, b) =>
         && b == s.bottom == |s.ids| && b - s.top < |Last(s.gens)|
         && Get(Last(s.gens), b, s.blank) == v
       case PopArray(b) => b + 1 == s.bottom == |s.ids|
       case PopStore(b, a) => b + 1 == s.bottom == |s.ids| && a == |s.gens| - 1
       case PopTop(b, a) => b == s.bottom && b + 1 == |s.ids| && a == |s.gens| - 1
       case PopTake(b, a) =>
         && b == s.bottom == |s.ids| && a == |s.gens| - 1
         && s.claimed.value < |s.hist|
         && Get(Last(s.gens), b, s.blank) == s.hist[s.claimed.value]
       case PopGetLast(b, a) => b == s.bottom && b + 1 == |s.ids| && a == |s.gens| - 1 && b <= s.top
       case PopCas(b, v) =>
         && b == s.bottom && b + 1 == |s.ids| && b <= s.top
         && (b == s.top ==> s.ids[b] < |s.hist| && v == s.hist[s.ids[b]])
       case PopRestore(b, won) => b == s.bottom && b + 1 == |s.ids| == s.top
  }

  // A thief's snapshot matters only while top still equals the index it read: then that index is
  // live, and the value it read, from whatever array, is the one pushed there.
  ghost predicate ThiefOk<T>(pc: Thief<T>, top: nat, ids: seq<nat>, hist: seq<T>, gens: seq<seq<T>>, blank: T) {
    match pc
    case Away => true
    case StealBottom(t) => t <= top
    case StealArray(t) => t <= top && (t == top ==> t < |ids|)
    case StealGet(t, a) =>
      && t <= top && a < |gens|
      && (t == top ==> Holds(ids, hist, gens[a], t, blank))
    case StealCas(t, v) =>
      && t <= top
      && (t == top ==> t < |ids| && ids[t] < |hist| && v == hist[ids[t]])
  }

  // 0, 1, ..., n - 1, each once.
  ghost function AllIds(n: nat): multiset<nat> {
    if n == 0 then multiset{} else AllIds(n - 1) + multiset{n - 1}
  }

  ghost function Claimed(c: Option<nat>): multiset<nat> {
    if c.Some? then multiset{c.value} else multiset{}
  }

  function Live<T>(s: State<T>): seq<nat> {
    if s.top <= |s.ids| then s.ids[s.top..] else []
  }

  // Handed out, live, or claimed: exactly the pushes so far, each in one place.
  ghost predicate Conserved<T>(s: State<T>) {
    multiset(Live(s)) + Claimed(s.claimed) + multiset(s.outIds) == AllIds(|s.hist|)
  }

  ghost predicate OutOk<T>(s: State<T>) {
    && |s.outIds| == |s.outVals|
    && (forall k | 0 <= k < |s.outIds| :: s.outIds[k] < |s.hist| && s.outVals[k] == s.hist[s.outIds[k]])
  }

  ghost predicate Inv<T>(s: State<T>) {
    && 1 <= s.top <= |s.ids|
    && ArraysOk(s)
    && OwnerOk(s)
    && (forall i | 0 <= i < |s.thieves| :: ThiefOk(s.thieves[i], s.top, s.ids, s.hist, s.gens, s.blank))
    && OutOk(s)
    && Conserved(s)
  }

  // ---- Ring arrays ----

  lemma PutGet<T>(items: seq<T>, i: nat, v: T, blank: T)
    requires |items| >= 1 && IsPow2(|items|)
    ensures |Put(items, i, v)| == |items| && Get(Put(items, i, v), i, blank) == v
    ensures forall j: nat | i < j + |items| && j < i + |items| && j != i ::
      Get(Put(items, i, v), j, blank) == Get(items, j, blank)
  {
    SlotBound(i, |items|);
    forall j: nat | i < j + |items| && j < i + |items| && j != i
      ensures Get(Put(items, i, v), j, blank) == Get(items, j, blank)
    {
      SlotBound(j, |items|);
      if i < j { SlotsDistinct(i, j, |items|); } else { SlotsDistinct(j, i, |items|); }
    }
  }

  // ---- Every step keeps the invariant ----

  // A step that changes only the owner's locals and bottom.
  lemma OwnerOnly<T>(s: State<T>, s': State<T>)
    requires Inv(s) && s' == s.(owner := s'.owner, bottom := s'.bottom) && OwnerOk(s')
    ensures Inv(s')
  {
  }

  lemma ThiefOnly<T>(s: State<T>, i: nat, pc: Thief<T>)
    requires Inv(s) && i < |s.thieves| && ThiefOk(pc, s.top, s.ids, s.hist, s.gens, s.blank)
    ensures Inv(SetThief(s, i, pc))
  {
  }

  lemma PushKeepsInv<T>(s: State<T>)
    requires Inv(s) && (s.owner.PushTop? || s.owner.PushArray?)
    ensures Inv(PushStep(s))
  {
    OwnerOnly(s, PushStep(s));
  }

  lemma CopyKeepsInv<T>(s: State<T>)
    requires Inv(s) && s.owner.Grow? && s.owner.i != s.owner.b
    ensures Inv(PushStep(s))
  {
    var i, grown := s.owner.i, s.owner.grown;
    Pow2Doubles(|Last(s.gens)|);
    PutGet(grown, i, Get(Last(s.gens), i, s.blank), s.blank);
    var grown' := Put(grown, i, Get(Last(s.gens), i, s.blank));
    forall j: nat | s.top <= j < i + 1
      ensures Holds(s.ids, s.hist, grown', j, s.blank)
    {
      assert Holds(s.ids, s.hist, Last(s.gens), j, s.blank);
      assert j < i ==> Holds(s.ids, s.hist, grown, j, s.blank);
    }
    OwnerOnly(s, PushStep(s));
  }

  // Publishing the bigger array: it holds the whole live window, and thieves keep their old one.
  lemma GrowKeepsInv<T>(s: State<T>)
    requires Inv(s) && s.owner.Grow? && s.owner.i == s.owner.b
    ensures Inv(PushStep(s))
  {
    var s' := PushStep(s);
    Pow2Doubles(|Last(s.gens)|);
    assert Last(s'.gens) == s.owner.grown;
    forall k | 0 <= k < |s.thieves|
      ensures ThiefOk(s.thieves[k], s.top, s.ids, s.hist, s'.gens, s.blank)
    {
      assert ThiefOk(s.thieves[k], s.top, s.ids, s.hist, s.gens, s.blank);
    }
  }

  // Writing the slot for index b disturbs no live index and no thief whose compare-exchange can
  // still succeed.
  lemma PutKeepsInv<T>(s: State<T>)
    requires Inv(s) && s.owner.PushPut?
    ensures Inv(PushStep(s))
  {
    var s' := PushStep(s);
    PutGet(Last(s.gens), s.owner.b, s.owner.v, s.blank);
    forall j: nat | s.top <= j < |s.ids|
      ensures Holds(s.ids, s.hist, Last(s'.gens), j, s.blank)
    {
      assert Holds(s.ids, s.hist, Last(s.gens), j, s.blank);
    }
    forall k | 0 <= k < |s.thieves|
      ensures ThiefOk(s.thieves[k], s.top, s.ids, s.hist, s'.gens, s.blank)
    {
      PutKeepsThief(s, s.thieves[k]);
    }
  }

  lemma PutKeepsThief<T>(s: State<T>, pc: Thief<T>)
    requires ArraysOk(s) && OwnerOk(s) && s.owner.PushPut?
    requires ThiefOk(pc, s.top, s.ids, s.hist, s.gens, s.blank)
    ensures ThiefOk(pc, s.top, s.ids, s.hist, PushStep(s).gens, s.blank)
  {
    PutGet(Last(s.gens), s.owner.b, s.owner.v, s.blank);
  }

  lemma PublishExtends<T>(ids: seq<nat>, hist: seq<T>, v: T, gens: seq<seq<T>>, top: nat, blank: T)
    requires |gens| >= 1 && Get(Last(gens), |ids|, blank) == v
    requires forall i: nat | top <= i < |ids| :: Holds(ids, hist, Last(gens), i, blank)
    ensures forall i: nat | top <= i < |ids| + 1 :: Holds(ids + [|hist|], hist + [v], Last(gens), i, blank)
  {
    forall i: nat | top <= i < |ids| + 1
      ensures Holds(ids + [|hist|], hist + [v], Last(gens), i, blank)
    {
      if i < |ids| { assert Holds(ids, hist, Last(gens), i, blank); }
    }
  }

  lemma PublishKeepsThief<T>(pc: Thief<T>, top: nat, ids: seq<nat>, hist: seq<T>, v: T, gens: seq<seq<T>>, blank: T)
    requires ThiefOk(pc, top, ids, hist, gens, blank)
    ensures ThiefOk(pc, top, ids + [|hist|], hist + [v], gens, blank)
  {
  }

  lemma PublishConserves<T>(s: State<T>, s': State<T>)
    requires s.top <= |s.ids| && Conserved(s) && s'.claimed == s.claimed && s'.outIds == s.outIds
    requires s'.top == s.top && s'.ids == s.ids + [|s.hist|] && |s'.hist| == |s.hist| + 1
    ensures Conserved(s')
  {
    assert Live(s') == Live(s) + [|s.hist|];
  }

  lemma PublishKeepsInv<T>(s: State<T>)
    requires Inv(s) && s.owner.PushPublish?
    ensures Inv(PushStep(s))
  {
    var s' := PushStep(s);
    var v := s.owner.v;
    assert s'.ids == s.ids + [|s.hist|];
    PublishExtends(s.ids, s.hist, v, s.gens, s.top, s.blank);
    forall k | 0 <= k < |s.thieves|
      ensures ThiefOk(s'.thieves[k], s'.top, s'.ids, s'.hist, s'.gens, s'.blank)
    {
      PublishKeepsThief(s.thieves[k], s.top, s.ids, s.hist, v, s.gens, s.blank);
    }
    PublishConserves(s, s');
  }

  lemma PopKeepsInv<T>(s: State<T>)
    requires Inv(s) && (s.owner.PopArray? || s.owner.PopStore? || s.owner.PopGetLast? || s.owner.PopRestore?)
    ensures Inv(PopStep(s))
  {
    if s.owner.PopGetLast? && s.owner.b == s.top {
      assert Holds(s.ids, s.hist, Last(s.gens), s.top, s.blank);
    }
    OwnerOnly(s, PopStep(s));
  }

  // A claim turns into a push handed out.
  lemma ClaimIsHandedOut<T>(s: State<T>, s': State<T>, id: nat, v: T)
    requires OutOk(s) && Conserved(s) && s.claimed == Some(id) && id < |s.hist| && v == s.hist[id]
    requires s' == HandOut(s, id, v).(owner := Idle, claimed := None)
    ensures OutOk(s') && Conserved(s')
  {
    assert Live(s') == Live(s);
  }

  lemma PopTakeKeepsInv<T>(s: State<T>)
    requires Inv(s) && s.owner.PopTake?
    ensures Inv(PopStep(s))
  {
    var v := Get(Array(s, s.owner.a), s.owner.b, s.blank);
    ClaimIsHandedOut(s, PopStep(s), s.claimed.value, v);
  }

  lemma LastLeaves<T>(s: State<T>, s': State<T>, b: nat)
    requires s.top < b && |s.ids| == b + 1 && s'.ids == s.ids[..b] && s'.top == s.top
    ensures Live(s) == Live(s') + [s.ids[b]]
  {
    assert s.ids == s'.ids + [s.ids[b]];
  }

  lemma LastIsClaimed<T>(s: State<T>, s': State<T>, b: nat)
    requires Conserved(s) && s.claimed.None? && s.top < b && |s.ids| == b + 1
    requires s' == s.(owner := s'.owner, claimed := Some(s.ids[b]), ids := s.ids[..b])
    ensures Conserved(s')
  {
    LastLeaves(s, s', b);
  }

  // Seeing top below b secures index b: no thief can still take it.
  lemma ClaimKeepsInv<T>(s: State<T>)
    requires Inv(s) && s.owner.PopTop?
    ensures Inv(PopStep(s))
  {
    var s' := PopStep(s);
    var b := s.owner.b;
    if s.top < b {
      assert Holds(s.ids, s.hist, Last(s.gens), b, s.blank);
      LastIsClaimed(s, s', b);
      forall j: nat | s.top <= j < b
        ensures Holds(s'.ids, s.hist, Last(s.gens), j, s.blank)
      {
        assert Holds(s.ids, s.hist, Last(s.gens), j, s.blank);
      }
      forall k | 0 <= k < |s.thieves|
        ensures ThiefOk(s.thieves[k], s.top, s'.ids, s.hist, s.gens, s.blank)
      {
        assert ThiefOk(s.thieves[k], s.top, s.ids, s.hist, s.gens, s.blank);
      }
    } else {
      OwnerOnly(s, s');
    }
  }

  // Taking the oldest live push by moving top past it.
  lemma TakeOldestKeeps<T>(s: State<T>, s': State<T>, v: T)
    requires Inv(s) && s.top < |s.ids| && s.ids[s.top] < |s.hist| && v == s.hist[s.ids[s.top]]
    requires s' == HandOut(s, s.ids[s.top], v).(top := s.top + 1, owner := s'.owner, thieves := s'.thieves)
    ensures ArraysOk(s') && OutOk(s') && Conserved(s')
    ensures forall k | 0 <= k < |s.thieves| :: ThiefOk(s.thieves[k], s'.top, s'.ids, s'.hist, s'.gens, s'.blank)
  {
    assert Live(s) == [s.ids[s.top]] + Live(s');
    forall j: nat | s'.top <= j < |s'.ids|
      ensures Holds(s'.ids, s'.hist, Last(s'.gens), j, s'.blank)
    {
      assert Holds(s.ids, s.hist, Last(s.gens), j, s.blank);
    }
    forall k | 0 <= k < |s.thieves|
      ensures ThiefOk(s.thieves[k], s'.top, s'.ids, s'.hist, s'.gens, s'.blank)
    {
      assert ThiefOk(s.thieves[k], s.top, s.ids, s.hist, s.gens, s.blank);
    }
  }

  lemma PopCasKeepsInv<T>(s: State<T>)
    requires Inv(s) && s.owner.PopCas?
    ensures Inv(PopStep(s))
  {
    if s.top == s.owner.b {
      TakeOldestKeeps(s, PopStep(s), s.owner.v);
    } else {
      OwnerOnly(s, PopStep(s));
    }
  }

  lemma StealCasKeepsInv<T>(s: State<T>, i: nat)
    requires Inv(s) && i < |s.thieves| && s.thieves[i].StealCas? && s.top == s.thieves[i].t
    ensures Inv(StealStep(s, i))
  {
    assert ThiefOk(s.thieves[i], s.top, s.ids, s.hist, s.gens, s.blank);
    TakeOldestKeeps(s, StealStep(s, i), s.thieves[i].v);
    TopMoves(s, StealStep(s, i));
  }

  lemma StealKeepsInv<T>(s: State<T>, i: nat)
    requires Inv(s) && i < |s.thieves|
    ensures Inv(StealStep(s, i))
  {
    var s' := StealStep(s, i);
    var pc := s.thieves[i];
    assert ThiefOk(pc, s.top, s.ids, s.hist, s.gens, s.blank);
    if pc.StealCas? && s.top == pc.t {
      StealCasKeepsInv(s, i);
    } else {
      if pc.StealArray? && pc.t == s.top { assert Holds(s.ids, s.hist, Last(s.gens), pc.t, s.blank); }
      ThiefOnly(s, i, s'.thieves[i]);
    }
  }

  // Nothing the owner relies on is lost when a thief moves top past a live index.
  lemma TopMoves<T>(s: State<T>, s': State<T>)
    requires Inv(s) && s.top < |s.ids|
    requires s'.top == s.top + 1 && s'.owner == s.owner && s'.bottom == s.bottom && s'.gens == s.gens
    requires s'.ids == s.ids && s'.hist == s.hist && s'.claimed == s.claimed && s'.blank == s.blank
    ensures OwnerOk(s')
  {
  }

  lemma PushStepKeepsInv<T>(s: State<T>)
    requires Inv(s) && Pushing(s.owner)
    ensures Inv(PushStep(s))
  {
    if s.owner.PushPublish? { PublishKeepsInv(s); }
    else if s.owner.PushPut? { PutKeepsInv(s); }
    else if s.owner.Grow? && s.owner.i == s.owner.b { GrowKeepsInv(s); }
    else if s.owner.Grow? { CopyKeepsInv(s); }
    else { PushKeepsInv(s); }
  }

  lemma PopStepKeepsInv<T>(s: State<T>)
    requires Inv(s) && !Pushing(s.owner)
    ensures Inv(PopStep(s))
  {
    if s.owner.PopTop? { ClaimKeepsInv(s); }
    else if s.owner.PopTake? { PopTakeKeepsInv(s); }
    else if s.owner.PopCas? { PopCasKeepsInv(s); }
    else if !s.owner.Idle? { PopKeepsInv(s); }
  }

  lemma StepKeepsInv<T>(s: State<T>, a: Action<T>)
    requires Inv(s)
    ensures Inv(Step(s, a))
  {
    match a
    case OwnerStep => if Pushing(s.owner) { PushStepKeepsInv(s); } else { PopStepKeepsInv(s); }
    case ThiefStep(i) => if i < |s.thieves| { StealKeepsInv(s, i); }
    case _ => OwnerOnly(s, Step(s, a));
  }

  lemma InitInv<T>(blank: T, thieves: nat)
    ensures Inv(Init(blank, thieves))
  {
    assert FIRST_SIZE == Pow2(5) by {
      assert Pow2(2) == 4;
      assert Pow2(4) == 16;
    }
  }

  // The invariant holds at the end of every run.
  lemma {:induction false} RunKeepsInv<T>(blank: T, thieves: nat, acts: seq<Action<T>>)
    ensures Inv(Exec(Init(blank, thieves), acts))
  {
    if acts == [] {
      InitInv(blank, thieves);
    } else {
      var before := acts[..|acts| - 1];
      RunKeepsInv(blank, thieves, before);
      StepKeepsInv(Exec(Init(blank, thieves), before), acts[|acts| - 1]);
    }
  }

  // ---- What every run guarantees ----

  lemma {:induction false} AllIdsCount(n: nat, id: nat)
    ensures AllIds(n)[id] == if id < n then 1 else 0
  {
    if n > 0 { AllIdsCount(n - 1, id); }
  }

  lemma {:induction false} AppearsOnce(xs: seq<nat>, j: nat, k: nat)
    requires j < k < |xs| && multiset(xs)[xs[j]] <= 1
    ensures xs[j] != xs[k]
  {
    assert xs == xs[..k] + xs[k..];
    assert xs[j] in xs[..k];
    assert xs[k] in xs[k..];
    assert multiset(xs) == multiset(xs[..k]) + multiset(xs[k..]);
  }

  // Handed out, live and claimed pushes together are exactly the pushes made; so no push is handed
  // out twice, and none that was handed out is still live or claimed.
  lemma NoPushLostOrDuplicated<T>(blank: T, thieves: nat, acts: seq<Action<T>>, id: nat)
    ensures var s := Exec(Init(blank, thieves), acts);
      && multiset(Live(s))[id] + Claimed(s.claimed)[id] + multiset(s.outIds)[id]
         == (if id < |s.hist| then 1 else 0)
      && (s.claimed.Some? ==> s.owner.PopTake?)
      && (forall j, k | 0 <= j < k < |s.outIds| :: s.outIds[j] != s.outIds[k])
  {
    RunKeepsInv(blank, thieves, acts);
    var s := Exec(Init(blank, thieves), acts);
    var total := multiset(Live(s)) + Claimed(s.claimed) + multiset(s.outIds);
    assert total[id] == multiset(Live(s))[id] + Claimed(s.claimed)[id] + multiset(s.outIds)[id];
    AllIdsCount(|s.hist|, id);
    forall j, k | 0 <= j < k < |s.outIds|
      ensures s.outIds[j] != s.outIds[k]
    {
      AllIdsCount(|s.hist|, s.outIds[j]);
      assert total[s.outIds[j]] <= 1;
      AppearsOnce(s.outIds, j, k);
    }
  }

  // The arguments of the calls of Push in a run, in order.
  function Asked<T>(s0: State<T>, acts: seq<Action<T>>): seq<T> {
    if acts == [] then []
    else
      var before, a := acts[..|acts| - 1], acts[|acts| - 1];
      Asked(s0, before) + (if a.StartPush? && Exec(s0, before).owner.Idle? then [a.v] else [])
  }

  function InProgress<T>(o: Owner<T>): seq<T> {
    if Pushing(o) then [o.v] else []
  }

  // What has been pushed is what Push was called with, but for a call still in progress.
  lemma {:induction false} AskedIsPushed<T>(blank: T, thieves: nat, acts: seq<Action<T>>)
    ensures var s := Exec(Init(blank, thieves), acts);
      Asked(Init(blank, thieves), acts) == s.hist + InProgress(s.owner)
  {
    if acts != [] {
      var before, a := acts[..|acts| - 1], acts[|acts| - 1];
      AskedIsPushed(blank, thieves, before);
      RunKeepsInv(blank, thieves, before);
      StepPushesWhatWasAsked(Exec(Init(blank, thieves), before), a);
    }
  }

  lemma StepPushesWhatWasAsked<T>(s: State<T>, a: Action<T>)
    requires |s.gens| >= 1 && (s.owner.PushPut? ==> s.owner.a < |s.gens|)
    ensures var s' := Step(s, a);
      s'.hist + InProgress(s'.owner) ==
        s.hist + InProgress(s.owner) + (if a.StartPush? && s.owner.Idle? then [a.v] else [])
  {
  }

  // A successful Steal returns what Push was called with for the index it read, whichever array
  // generation the value came from; that push was the oldest live one.
  lemma SuccessfulStealIsRight<T>(blank: T, thieves: nat, acts: seq<Action<T>>, i: nat)
    requires var s := Exec(Init(blank, thieves), acts);
      i < |s.thieves| && s.thieves[i].StealCas? && s.top == s.thieves[i].t
    ensures var s := Exec(Init(blank, thieves), acts);
      var s' := Step(s, ThiefStep(i));
      && |Live(s)| > 0 && Live(s') == Live(s)[1..]
      && s'.outIds == s.outIds + [Live(s)[0]]
      && s'.outVals == s.outVals + [s.thieves[i].v]
      && var asked := Asked(Init(blank, thieves), acts);
         Live(s)[0] < |asked| && s.thieves[i].v == asked[Live(s)[0]]
  {
    RunKeepsInv(blank, thieves, acts);
    AskedIsPushed(blank, thieves, acts);
    var s := Exec(Init(blank, thieves), acts);
    assert ThiefOk(s.thieves[i], s.top, s.ids, s.hist, s.gens, s.blank);
  }

  // Every value a call has returned is the argument of the Push it hands out.
  lemma ReturnedValuesWerePushed<T>(blank: T, thieves: nat, acts: seq<Action<T>>, k: nat)
    requires k < |Exec(Init(blank, thieves), acts).outIds|
    ensures var s := Exec(Init(blank, thieves), acts);
      && |s.outVals| == |s.outIds|
      && var asked := Asked(Init(blank, thieves), acts);
         s.outIds[k] < |asked| && s.outVals[k] == asked[s.outIds[k]]
  {
    RunKeepsInv(blank, thieves, acts);
    AskedIsPushed(blank, thieves, acts);
  }

  predicate InPop<T>(o: Owner<T>) {
    !o.Idle? && !Pushing(o)
  }

  // The index arithmetic never wraps, and the ring never holds two live indices in one slot.
  lemma IndexArithmetic<T>(blank: T, thieves: nat, acts: seq<Action<T>>)
    ensures var s := Exec(Init(blank, thieves), acts);
      && (!InPop(s.owner) ==> s.top <= s.bottom)
      && (s.owner.Idle? ==> s.bottom >= 1)
      && (s.owner.PushArray? ==> s.owner.t <= s.owner.b)
      && (forall a | 0 <= a < |s.gens| :: |s.gens[a]| >= 1 && IsPow2(|s.gens[a]|))
      && |s.gens| >= 1
      && (forall i: nat, j: nat | s.top <= i < j < |s.ids| ::
            Slot(i, |Last(s.gens)|) != Slot(j, |Last(s.gens)|))
      && (s.owner.PushPut? ==> forall i: nat | s.top <= i < |s.ids| ::
            Slot(i, |Last(s.gens)|) != Slot(s.owner.b, |Last(s.gens)|))
  {
    RunKeepsInv(blank, thieves, acts);
    var s := Exec(Init(blank, thieves), acts);
    var n := |Last(s.gens)|;
    forall i: nat, j: nat | s.top <= i < j < |s.ids|
      ensures Slot(i, n) != Slot(j, n)
    {
      SlotsDistinct(i, j, n);
    }
    if s.owner.PushPut? {
      forall i: nat | s.top <= i < |s.ids|
        ensures Slot(i, n) != Slot(s.owner.b, n)
      {
        SlotsDistinct(i, s.owner.b, n);
      }
    }
  }

  // ---- Each step is at most one operation on a plain sequence ----

  datatype Op<X> = Nothing | PushBack(x: X) | TakeBack(x: X) | TakeFront(x: X)

  ghost predicate Does<X>(op: Op<X>, before: seq<X>, after: seq<X>) {
    match op
    case Nothing => after == before
    case PushBack(x) => after == before + [x]
    case TakeBack(x) => before == after + [x]
    case TakeFront(x) => before == [x] + after
  }

  // The step at which each call takes effect, and the push it is about.
  function OpOf<T>(s: State<T>, a: Action<T>): Op<nat> {
    if a.OwnerStep? then
      if s.owner.PushPublish? then PushBack(|s.hist|)
      else if s.owner.PopTop? && s.top < s.owner.b then TakeBack(At(s.ids, s.owner.b, 0))
      else if s.owner.PopCas? && s.top == s.owner.b then TakeFront(At(s.ids, s.owner.b, 0))
      else Nothing
    else if a.ThiefStep? && a.i < |s.thieves| && s.thieves[a.i].StealCas? && s.top == s.thieves[a.i].t
    then TakeFront(At(s.ids, s.top, 0))
    else Nothing
  }

  // The push a step takes off is the one the call claims, or hands out; and a call that has claimed one
  // hands out that one.
  ghost predicate HandsOutWhatItTook<T>(op: Op<nat>, s: State<T>, s': State<T>) {
    && (op.TakeBack? ==> s'.claimed == Some(op.x) && s'.outIds == s.outIds)
    && (op.TakeFront? ==> s'.outIds == s.outIds + [op.x])
    && (!op.TakeFront? && s'.outIds != s.outIds ==>
          s.claimed.Some? && s'.claimed == None && s'.outIds == s.outIds + [s.claimed.value])
    && (s.claimed.Some? && s'.claimed != s.claimed ==> s'.outIds == s.outIds + [s.claimed.value])
  }

  lemma PushDoesOneOperation<T>(s: State<T>)
    requires Inv(s) && Pushing(s.owner)
    ensures Does(OpOf(s, OwnerStep), Live(s), Live(PushStep(s)))
    ensures HandsOutWhatItTook(OpOf(s, OwnerStep), s, PushStep(s))
  {
    if s.owner.PushPublish? {
      assert PushStep(s).ids == s.ids + [|s.hist|];
    }
  }

  lemma PopDoesOneOperation<T>(s: State<T>)
    requires Inv(s) && !Pushing(s.owner)
    ensures Does(OpOf(s, OwnerStep), Live(s), Live(PopStep(s)))
    ensures HandsOutWhatItTook(OpOf(s, OwnerStep), s, PopStep(s))
  {
    var s' := PopStep(s);
    if s.owner.PopTop? && s.top < s.owner.b {
      LastLeaves(s, s', s.owner.b);
    } else if s.owner.PopCas? && s.top == s.owner.b {
      assert Live(s) == [s.ids[s.top]] + Live(s');
    }
  }

  lemma StealDoesOneOperation<T>(s: State<T>, i: nat)
    requires Inv(s) && i < |s.thieves|
    ensures Does(OpOf(s, ThiefStep(i)), Live(s), Live(StealStep(s, i)))
    ensures HandsOutWhatItTook(OpOf(s, ThiefStep(i)), s, StealStep(s, i))
  {
    assert ThiefOk(s.thieves[i], s.top, s.ids, s.hist, s.gens, s.blank);
    if s.thieves[i].StealCas? && s.top == s.thieves[i].t {
      assert Live(s) == [s.ids[s.top]] + Live(StealStep(s, i));
    }
  }

  lemma EachStepIsOneOperation<T>(blank: T, thieves: nat, acts: seq<Action<T>>, a: Action<T>)
    ensures var s := Exec(Init(blank, thieves), acts);
      Does(OpOf(s, a), Live(s), Live(Step(s, a))) && HandsOutWhatItTook(OpOf(s, a), s, Step(s, a))
  {
    RunKeepsInv(blank, thieves, acts);
    var s := Exec(Init(blank, thieves), acts);
    match a
    case OwnerStep => if Pushing(s.owner) { PushDoesOneOperation(s); } else { PopDoesOneOperation(s); }
    case ThiefStep(i) => if i < |s.thieves| { StealDoesOneOperation(s, i); }
    case _ =>
  }

  // Pop reports failure only when, at that moment, nothing is live.
  lemma PopFailsOnlyWhenEmpty<T>(blank: T, thieves: nat, acts: seq<Action<T>>)
    ensures var s := Exec(Init(blank, thieves), acts);
      s.owner.PopRestore? && !s.owner.won ==> Live(s) == []
  {
    RunKeepsInv(blank, thieves, acts);
  }

  // A Steal gives up only if another call took the item it was after, or if nothing is left to steal
  // but, at most, what a Pop is taking.
  lemma StealFailsOnlyWhenBeaten<T>(blank: T, thieves: nat, acts: seq<Action<T>>, i: nat)
    requires var s := Exec(Init(blank, thieves), acts);
      && i < |s.thieves| && !s.thieves[i].Away?
      && Step(s, ThiefStep(i)).thieves[i].Away? && Step(s, ThiefStep(i)).outIds == s.outIds
    ensures var s := Exec(Init(blank, thieves), acts);
      s.top > s.thieves[i].t || |Live(s)| == 0 || (|Live(s)| == 1 && InPop(s.owner))
  {
    RunKeepsInv(blank, thieves, acts);
    var s := Exec(Init(blank, thieves), acts);
    assert ThiefOk(s.thieves[i], s.top, s.ids, s.hist, s.gens, s.blank);
  }

  // ---- Arrays ----

  // How big the arrays are, and that one is replaced only when it was full as Push saw it.
  ghost predicate SizesOk<T>(s: State<T>) {
    && |s.gens| >= 1 && |s.gens[0]| == 32
    && (forall k | 0 < k < |s.gens| :: |s.gens[k]| == 2 * |s.gens[k - 1]|)
    && (s.owner.Grow? ==>
          |s.owner.grown| == 2 * |Last(s.gens)| && s.owner.b >= s.owner.t + |Last(s.gens)|)
  }

  lemma {:induction false} ArraysDoubleWhenFull<T>(blank: T, thieves: nat, acts: seq<Action<T>>)
    ensures SizesOk(Exec(Init(blank, thieves), acts))
  {
    if acts == [] {
    } else {
      var before := acts[..|acts| - 1];
      ArraysDoubleWhenFull(blank, thieves, before);
      RunKeepsInv(blank, thieves, before);
      StepKeepsSizes(Exec(Init(blank, thieves), before), acts[|acts| - 1]);
    }
  }

  lemma StepKeepsSizes<T>(s: State<T>, a: Action<T>)
    requires SizesOk(s) && (s.owner.PushArray? ==> s.owner.t <= s.owner.b)
    ensures SizesOk(Step(s, a))
  {
    if a.OwnerStep? && Pushing(s.owner) {
      PushKeepsSizes(s);
    } else {
      OthersKeepSizes(s, a);
    }
  }

  lemma PushKeepsSizes<T>(s: State<T>)
    requires SizesOk(s) && Pushing(s.owner) && (s.owner.PushArray? ==> s.owner.t <= s.owner.b)
    ensures SizesOk(PushStep(s))
  {
    if s.owner.PushPut? {
      assert forall k | 0 <= k < |s.gens| :: |PushStep(s).gens[k]| == |s.gens[k]|;
    }
  }

  lemma OthersKeepSizes<T>(s: State<T>, a: Action<T>)
    requires SizesOk(s) && !(a.OwnerStep? && Pushing(s.owner))
    ensures Step(s, a).gens == s.gens && !(Step(s, a).owner.Grow? && Step(s, a).owner != s.owner)
    ensures SizesOk(Step(s, a))
  {
  }

  // ---- Wait-freedom ----

  // How many more of its own steps a call of the owner can take, however the thieves step in between.
  function OwnerWork<T>(s: State<T>): int {
    match s.owner
    case Idle => 0
    case PushTop(_, b) => b - s.top + 5
    case PushArray(_, b, t) => b - t + 4
    case Grow(_, b, _, _, i) => b - i + 3
    case PushPut(_, _, _) => 2
    case PushPublish(_, _) => 1
    case PopArray(_) => 6
    case PopStore(_, _) => 5
    case PopTop(_, _) => 4
    case PopTake(_, _) => 1
    case PopGetLast(_, _) => 3
    case PopCas(_, _) => 2
    case PopRestore(_, _) => 1
  }

  function ThiefWork<T>(pc: Thief<T>): nat {
    match pc
    case Away => 0
    case StealBottom(_) => 4
    case StealArray(_) => 3
    case StealGet(_, _) => 2
    case StealCas(_, _) => 1
  }

  lemma WorkIsLeft<T>(s: State<T>)
    requires Inv(s)
    ensures !s.owner.Idle? ==> OwnerWork(s) >= 1
  {
  }

  lemma OwnStepIsProgress<T>(s: State<T>)
    requires Inv(s) && !s.owner.Idle?
    ensures OwnerWork(Step(s, OwnerStep)) < OwnerWork(s)
    ensures !Step(s, OwnerStep).owner.Idle? ==> OwnerWork(Step(s, OwnerStep)) >= 1
  {
    if Pushing(s.owner) { PushIsProgress(s); } else { PopIsProgress(s); }
  }

  lemma PushIsProgress<T>(s: State<T>)
    requires Inv(s) && Pushing(s.owner)
    ensures OwnerWork(PushStep(s)) < OwnerWork(s)
    ensures !PushStep(s).owner.Idle? ==> OwnerWork(PushStep(s)) >= 1
  {
  }

  lemma PopIsProgress<T>(s: State<T>)
    requires |s.gens| >= 1 && !Pushing(s.owner) && !s.owner.Idle? && (s.owner.PopTake? ==> s.claimed.Some?)
    ensures OwnerWork(PopStep(s)) < OwnerWork(s)
    ensures !PopStep(s).owner.Idle? ==> OwnerWork(PopStep(s)) >= 1
  {
  }

  lemma OtherStepsDoNotHinder<T>(s: State<T>, i: nat)
    requires Inv(s)
    ensures OwnerWork(Step(s, ThiefStep(i))) <= OwnerWork(s)
    ensures Step(s, ThiefStep(i)).owner == s.owner
    ensures !s.owner.Idle? ==> OwnerWork(Step(s, ThiefStep(i))) >= 1
  {
  }

  function OwnerSteps<T>(acts: seq<Action<T>>): nat {
    if acts == [] then 0 else OwnerSteps(acts[..|acts| - 1]) + (if acts[|acts| - 1].OwnerStep? then 1 else 0)
  }

  // A Push called with n items live is over after n + 5 steps of its own, and a Pop after 6, whatever
  // the thieves do meanwhile.
  lemma OwnerIsWaitFree<T>(blank: T, thieves: nat, acts: seq<Action<T>>, call: Action<T>, more: seq<Action<T>>)
    requires var s := Exec(Init(blank, thieves), acts);
      && s.owner.Idle? && (call.StartPush? || call.StartPop?)
      && (forall a | a in more :: a.OwnerStep? || a.ThiefStep?)
      && OwnerSteps(more) >= if call.StartPush? then |Live(s)| + 5 else 6
    ensures Exec(Exec(Init(blank, thieves), acts + [call]), more).owner.Idle?
  {
    RunKeepsInv(blank, thieves, acts + [call]);
    assert (acts + [call])[..|acts|] == acts;
    RunKeepsInv(blank, thieves, acts);
    WorkRunsOut(Exec(Init(blank, thieves), acts + [call]), more);
  }

  lemma {:induction false} WorkRunsOut<T>(s: State<T>, more: seq<Action<T>>)
    requires Inv(s) && forall a | a in more :: a.OwnerStep? || a.ThiefStep?
    ensures Exec(s, more).owner.Idle? || 1 <= OwnerWork(Exec(s, more)) <= OwnerWork(s) - OwnerSteps(more)
  {
    if more != [] {
      var before, a := more[..|more| - 1], more[|more| - 1];
      WorkRunsOut(s, before);
      InvFromHere(s, before);
      OneStepOfWork(Exec(s, before), a);
    } else {
      WorkIsLeft(s);
    }
  }

  lemma {:induction false} InvFromHere<T>(s: State<T>, more: seq<Action<T>>)
    requires Inv(s)
    ensures Inv(Exec(s, more))
  {
    if more != [] {
      InvFromHere(s, more[..|more| - 1]);
      StepKeepsInv(Exec(s, more[..|more| - 1]), more[|more| - 1]);
    }
  }

  lemma OneStepOfWork<T>(s: State<T>, a: Action<T>)
    requires Inv(s) && (a.OwnerStep? || a.ThiefStep?)
    ensures s.owner.Idle? ==> Step(s, a).owner.Idle?
    ensures Step(s, a).owner.Idle? || 1 <= OwnerWork(Step(s, a)) <= OwnerWork(s) - (if a.OwnerStep? then 1 else 0)
  {
    match a
    case OwnerStep => if !s.owner.Idle? { OwnStepIsProgress(s); }
    case ThiefStep(i) => OtherStepsDoNotHinder(s, i);
  }

  // A Steal is over after at most 5 steps of its own, its first included, whatever the others do.
  lemma StealIsWaitFree<T>(s: State<T>, i: nat, a: Action<T>)
    requires i < |s.thieves| && |s.gens| >= 1
    ensures ThiefWork(Step(s, ThiefStep(i)).thieves[i]) <= 4
    ensures !s.thieves[i].Away? ==> ThiefWork(Step(s, ThiefStep(i)).thieves[i]) < ThiefWork(s.thieves[i])
    ensures a != ThiefStep(i) ==> |Step(s, a).thieves| == |s.thieves| && Step(s, a).thieves[i] == s.thieves[i]
    ensures ThiefWork(s.thieves[i]) == 0 <==> s.thieves[i].Away?
  {
  }

  // ---- Run alone ----

  // The owner makes k steps, and thief i makes k steps, with nobody in between.
  function OwnerAlone<T>(s: State<T>, k: nat): State<T> {
    if k == 0 then s else Step(OwnerAlone(s, k - 1), OwnerStep)
  }

  function ThiefAlone<T>(s: State<T>, i: nat, k: nat): State<T> {
    if k == 0 then s else Step(ThiefAlone(s, i, k - 1), ThiefStep(i))
  }

  // What a call made alone does that takes the item at position k of the live ones: if there is none,
  // nothing.
  ghost predicate Takes<T>(s: State<T>, s': State<T>, k: int) {
    if Live(s) == [] then Live(s') == [] && s'.outIds == s.outIds && s'.outVals == s.outVals
    else
      && 0 <= k < |Live(s)| && Live(s)[k] < |s.hist|
      && Live(s') == Live(s)[..k] + Live(s)[k + 1..]
      && s'.outIds == s.outIds + [Live(s)[k]] && s'.outVals == s.outVals + [s.hist[Live(s)[k]]]
  }

  // Made alone, a Pop takes the newest item, unless there is none.
  lemma PopAlone<T>(blank: T, thieves: nat, acts: seq<Action<T>>)
    requires Exec(Init(blank, thieves), acts).owner.Idle?
    ensures var s := Exec(Init(blank, thieves), acts);
      var s' := OwnerAlone(Step(s, StartPop), 6);
      s'.owner.Idle? && Takes(s, s', |Live(s)| - 1)
  {
    RunKeepsInv(blank, thieves, acts);
    PopFrom(Exec(Init(blank, thieves), acts));
  }

  lemma PopFrom<T>(s: State<T>)
    requires Inv(s) && s.owner.Idle?
    ensures var s' := OwnerAlone(Step(s, StartPop), 6);
      s'.owner.Idle? && Takes(s, s', |Live(s)| - 1)
  {
    var s0, b, a := Step(s, StartPop), s.bottom - 1, |s.gens| - 1;
    assert s0 == s.(owner := PopArray(b));
    assert OwnerAlone(s0, 0) == s0;
    assert OwnerAlone(s0, 1) == s.(owner := PopStore(b, a));
    assert OwnerAlone(s0, 2) == s.(owner := PopTop(b, a), bottom := b);
    if s.top < b { PopBack(s, OwnerAlone(s0, 2)); }
    else if s.top == b { PopLast(s, OwnerAlone(s0, 2)); }
    else { PopNothing(s, OwnerAlone(s0, 2)); }
    assert OwnerAlone(s0, 3) == OwnerAlone(OwnerAlone(s0, 2), 1);
    assert OwnerAlone(s0, 4) == OwnerAlone(OwnerAlone(s0, 2), 2);
    assert OwnerAlone(s0, 5) == OwnerAlone(OwnerAlone(s0, 2), 3);
    assert OwnerAlone(s0, 6) == OwnerAlone(OwnerAlone(s0, 2), 4);
  }

  lemma PopBack<T>(s: State<T>, s2: State<T>)
    requires Inv(s) && s.owner.Idle? && s.top < s.bottom - 1
    requires s2 == s.(owner := PopTop(s.bottom - 1, |s.gens| - 1), bottom := s.bottom - 1)
    ensures OwnerAlone(s2, 4).owner.Idle? && Takes(s, OwnerAlone(s2, 4), |Live(s)| - 1)
  {
    var b := s.bottom - 1;
    assert Holds(s.ids, s.hist, Last(s.gens), b, s.blank);
    var s3 := s2.(owner := PopTake(b, |s.gens| - 1), claimed := Some(s.ids[b]), ids := s.ids[..b]);
    assert OwnerAlone(s2, 0) == s2;
    assert OwnerAlone(s2, 1) == s3;
    var s4 := HandOut(s3, s.ids[b], s.hist[s.ids[b]]).(owner := Idle, claimed := None);
    assert OwnerAlone(s2, 2) == s4;
    assert OwnerAlone(s2, 3) == s4;
    LastLeaves(s, s4, b);
    assert Live(s)[|Live(s)| - 1 + 1..] == [];
  }

  lemma PopLast<T>(s: State<T>, s2: State<T>)
    requires Inv(s) && s.owner.Idle? && s.top == s.bottom - 1
    requires s2 == s.(owner := PopTop(s.bottom - 1, |s.gens| - 1), bottom := s.bottom - 1)
    ensures OwnerAlone(s2, 4).owner.Idle? && Takes(s, OwnerAlone(s2, 4), |Live(s)| - 1)
  {
    var b, a := s.bottom - 1, |s.gens| - 1;
    assert Holds(s.ids, s.hist, Last(s.gens), b, s.blank);
    var v := s.hist[s.ids[b]];
    assert OwnerAlone(s2, 0) == s2;
    assert OwnerAlone(s2, 1) == s2.(owner := PopGetLast(b, a));
    assert OwnerAlone(s2, 2) == s2.(owner := PopCas(b, v));
    assert OwnerAlone(s2, 3) == HandOut(s2, s.ids[b], v).(top := b + 1, owner := PopRestore(b, true));
    assert Live(s) == [s.ids[b]];
    assert Live(OwnerAlone(s2, 4)) == [];
  }

  lemma PopNothing<T>(s: State<T>, s2: State<T>)
    requires Inv(s) && s.owner.Idle? && s.top > s.bottom - 1
    requires s2 == s.(owner := PopTop(s.bottom - 1, |s.gens| - 1), bottom := s.bottom - 1)
    ensures OwnerAlone(s2, 4).owner.Idle? && Takes(s, OwnerAlone(s2, 4), |Live(s)| - 1)
  {
    assert OwnerAlone(s2, 0) == s2;
    assert OwnerAlone(s2, 1) == s2.(owner := PopRestore(s.bottom - 1, false));
    assert OwnerAlone(s2, 2) == s.(owner := Idle);
    assert OwnerAlone(s2, 3) == s.(owner := Idle);
  }

  // Made alone, a Steal takes the oldest item, unless there is none but what a Pop is taking.
  lemma StealAlone<T>(blank: T, thieves: nat, acts: seq<Action<T>>, i: nat)
    requires var s := Exec(Init(blank, thieves), acts); i < |s.thieves| && s.thieves[i].Away?
    ensures var s := Exec(Init(blank, thieves), acts);
      if s.top < s.bottom
      then var s' := ThiefAlone(s, i, 5); s'.thieves == s.thieves && Live(s) != [] && Takes(s, s', 0)
      else ThiefAlone(s, i, 2) == s
  {
    RunKeepsInv(blank, thieves, acts);
    StealFrom(Exec(Init(blank, thieves), acts), i);
  }

  lemma StealFrom<T>(s: State<T>, i: nat)
    requires Inv(s) && i < |s.thieves| && s.thieves[i].Away?
    ensures if s.top < s.bottom
      then var s' := ThiefAlone(s, i, 5); s'.thieves == s.thieves && Live(s) != [] && Takes(s, s', 0)
      else ThiefAlone(s, i, 2) == s
  {
    var t := s.top;
    SetTwice(s, i, StealBottom(t), if t < s.bottom then StealArray(t) else Away);
    assert ThiefAlone(s, i, 1) == SetThief(s, i, StealBottom(t));
    assert ThiefAlone(s, i, 2) == SetThief(s, i, if t < s.bottom then StealArray(t) else Away);
    assert SetThief(s, i, Away).thieves == s.thieves;
    if t < s.bottom {
      assert Holds(s.ids, s.hist, Last(s.gens), t, s.blank);
      StealReads(s, i);
      StealTakes(s, i, ThiefAlone(s, i, 4));
    }
  }

  lemma SetTwice<T>(s: State<T>, i: nat, x: Thief<T>, y: Thief<T>)
    requires i < |s.thieves|
    ensures SetThief(SetThief(s, i, x), i, y) == SetThief(s, i, y)
  {
    assert s.thieves[i := x][i := y] == s.thieves[i := y];
  }

  lemma StealReads<T>(s: State<T>, i: nat)
    requires i < |s.thieves| && |s.gens| >= 1 && ThiefAlone(s, i, 2) == SetThief(s, i, StealArray(s.top))
    ensures ThiefAlone(s, i, 4) == SetThief(s, i, StealCas(s.top, Get(Last(s.gens), s.top, s.blank)))
  {
    var a, v := |s.gens| - 1, Get(Last(s.gens), s.top, s.blank);
    SetTwice(s, i, StealArray(s.top), StealGet(s.top, a));
    assert ThiefAlone(s, i, 3) == SetThief(s, i, StealGet(s.top, a));
    SetTwice(s, i, StealGet(s.top, a), StealCas(s.top, v));
  }

  lemma StealTakes<T>(s: State<T>, i: nat, s4: State<T>)
    requires i < |s.thieves| && s.thieves[i].Away? && s.top < |s.ids| && s.ids[s.top] < |s.hist|
    requires s4 == SetThief(s, i, StealCas(s.top, s.hist[s.ids[s.top]]))
    ensures var s' := Step(s4, ThiefStep(i)); s'.thieves == s.thieves && Live(s) != [] && Takes(s, s', 0)
  {
    var s' := Step(s4, ThiefStep(i));
    assert s4.thieves[i := Away] == s.thieves;
    assert Live(s) == [s.ids[s.top]] + Live(s');
  }
}

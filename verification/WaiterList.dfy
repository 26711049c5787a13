// The intrusive list of waiting fibers that Fibtex and WaitGroup share: each bundle points to the
// next one, and the head's QueueTail points to the last. Fibers stand for their bundles.
module WaiterList {
  import opened Options

  type Link = Option<nat>

  // next chains q's fibers in order and ends after the last one.
  ghost predicate Linked(next: seq<Link>, q: seq<nat>) {
    && (forall i | 0 <= i < |q| :: q[i] < |next|)
    && (forall i | 0 <= i < |q| - 1 :: next[q[i]] == Some(q[i + 1]))
    && (|q| > 0 ==> next[q[|q| - 1]] == None)
  }

  ghost predicate NoDuplicates(q: seq<nat>) {
    forall i, j | 0 <= i < j < |q| :: q[i] != q[j]
  }

  function Head(q: seq<nat>): Link {
    if |q| == 0 then None else Some(q[0])
  }

  function Last(q: seq<nat>): Link {
    if |q| == 0 then None else Some(q[|q| - 1])
  }

  // What a reader collects by following next pointers from h, giving up after `steps` bundles.
  function Follow(next: seq<Link>, h: Link, steps: nat): seq<nat>
    decreases steps
  {
    if steps == 0 || h.None? || h.value >= |next| then []
    else [h.value] + Follow(next, next[h.value], steps - 1)
  }

  // Following next from the head visits exactly q, in order, and stops.
  lemma {:induction false} FollowVisitsQueue(next: seq<Link>, q: seq<nat>, steps: nat)
    requires Linked(next, q) && steps >= |q|
    ensures Follow(next, Head(q), steps) == q
    decreases |q|
  {
    if |q| > 0 {
      assert next[q[0]] == Head(q[1..]);
      FollowVisitsQueue(next, q[1..], steps - 1);
    } else {
      assert q == [];
    }
  }

  // Where a fiber's bundle is: nowhere, on the list, with whoever took it off, or ready.
  datatype Place = Awake | Queued | Hands(u: nat) | Ready

  // The bundles of all fibers: their Next, QueueTail and FiberIsSwitched fields. queue is the order
  // in which the listed ones were enqueued; queue and place are history.
  datatype Bundles = Bundles(
    next: seq<Link>, tail: seq<Link>, switched: seq<bool>, queue: seq<nat>, place: seq<Place>)

  function NoBundles(n: nat): Bundles {
    Bundles(seq(n, _ => None), seq(n, _ => None), seq(n, _ => false), [], seq(n, _ => Awake))
  }

  function Set<T>(xs: seq<T>, i: nat, x: T): (ys: seq<T>)
    ensures |ys| == |xs|
  {
    if i < |xs| then xs[i := x] else xs
  }

  function LinkAt(links: seq<Link>, i: nat): Link {
    if i < |links| then links[i] else None
  }

  // ---- What the code does to bundles ----

  function Fresh(b: Bundles, f: nat): Bundles {
    b.(next := Set(b.next, f, None), tail := Set(b.tail, f, None), switched := Set(b.switched, f, false))
  }

  // head->QueueTail->Next = f
  function LinkBehind(b: Bundles, h: nat, f: nat): Bundles {
    var last := LinkAt(b.tail, h);
    b.(next := if last.Some? then Set(b.next, last.value, Some(f)) else b.next,
       queue := b.queue + [f], place := Set(b.place, f, Queued))
  }

  function PointTail(b: Bundles, h: nat, l: Link): Bundles {
    b.(tail := Set(b.tail, h, l))
  }

  function StartQueue(b: Bundles, f: nat): Bundles {
    b.(tail := Set(b.tail, f, Some(f)), queue := b.queue + [f], place := Set(b.place, f, Queued))
  }

  function MarkSwitched(b: Bundles, f: nat): Bundles {
    b.(switched := Set(b.switched, f, true))
  }

  // The list's front now belongs to u.
  function TakeFront(b: Bundles, h: nat, u: nat): Bundles {
    b.(queue := if |b.queue| > 0 then b.queue[1..] else [], place := Set(b.place, h, Hands(u)))
  }

  function ClearNext(b: Bundles, h: nat): Bundles {
    b.(next := Set(b.next, h, None))
  }

  function ClearTail(b: Bundles, h: nat): Bundles {
    b.(tail := Set(b.tail, h, None))
  }

  function HandOver(b: Bundles, h: nat): Bundles {
    b.(place := Set(b.place, h, Ready))
  }

  function Wake(b: Bundles, f: nat): Bundles {
    b.(place := Set(b.place, f, Awake))
  }

  // ---- What stays true of them ----

  ghost predicate Sizes(b: Bundles, n: nat) {
    |b.next| == |b.tail| == |b.switched| == |b.place| == n
  }

  ghost predicate ListOk(b: Bundles, n: nat) {
    && Sizes(b, n)
    && Linked(b.next, b.queue) && NoDuplicates(b.queue)
    && (forall i | 0 <= i < |b.queue| :: b.place[b.queue[i]] == Queued)
    && (forall f | 0 <= f < n :: b.place[f] == Queued ==> f in b.queue)
    && (forall f | 0 <= f < n :: b.place[f] == Ready ==> b.next[f] == None && b.tail[f] == None)
  }

  // QueueTail of the head is right; or the last fiber is linked and QueueTail does not say so yet;
  // or nobody relies on it.
  datatype TailState = Right | Lags | Unused

  ghost predicate TailOk(b: Bundles, t: TailState)
    requires |b.tail| == |b.next| && Linked(b.next, b.queue)
  {
    match t
    case Right => |b.queue| > 0 ==> b.tail[b.queue[0]] == Last(b.queue)
    case Lags => |b.queue| >= 2 && b.tail[b.queue[0]] == Last(b.queue[..|b.queue| - 1])
    case Unused => true
  }

  // ---- How each operation changes it ----

  lemma FreshKeeps(b: Bundles, n: nat, f: nat, t: TailState)
    requires ListOk(b, n) && TailOk(b, t) && f < n && b.place[f] == Awake
    ensures ListOk(Fresh(b, f), n) && TailOk(Fresh(b, f), t)
  {
  }

  lemma LinkBehindKeeps(b: Bundles, n: nat, h: nat, f: nat)
    requires ListOk(b, n) && TailOk(b, Right) && f < n && b.place[f] == Awake
    requires Head(b.queue) == Some(h) && b.next[f] == None
    ensures ListOk(LinkBehind(b, h, f), n) && TailOk(LinkBehind(b, h, f), Lags)
    ensures Head(LinkBehind(b, h, f).queue) == Some(h)
  {
    LinkBehindKeepsList(b, n, h, f);
    assert LinkBehind(b, h, f).queue[..|b.queue|] == b.queue;
  }

  lemma LinkBehindKeepsList(b: Bundles, n: nat, h: nat, f: nat)
    requires ListOk(b, n) && TailOk(b, Right) && f < n && b.place[f] == Awake
    requires Head(b.queue) == Some(h) && b.next[f] == None
    ensures ListOk(LinkBehind(b, h, f), n)
  {
    var q := b.queue;
    assert f !in q;
    LinkAtBack(b.next, q, f);
    AddPlaced(b.place, q, f);
    assert b.place[q[|q| - 1]] == Queued;
  }

  lemma LinkBehindFrame(b: Bundles, n: nat, h: nat, f: nat)
    requires ListOk(b, n) && TailOk(b, Right) && f < n && b.place[f] == Awake && Head(b.queue) == Some(h)
    ensures var b' := LinkBehind(b, h, f);
      && b'.tail == b.tail && b'.switched == b.switched && b'.place == b.place[f := Queued]
      && b'.queue == b.queue + [f] && b'.next[f] == b.next[f]
      && (forall y | 0 <= y < n && b.place[y] != Queued :: b'.next[y] == b.next[y])
  {
    assert b.place[b.queue[|b.queue| - 1]] == Queued;
  }

  lemma LinkAtBack(next: seq<Link>, q: seq<nat>, f: nat)
    requires Linked(next, q) && NoDuplicates(q) && |q| > 0 && f !in q && f < |next| && next[f] == None
    ensures Linked(next[q[|q| - 1] := Some(f)], q + [f]) && NoDuplicates(q + [f])
  {
  }

  lemma AddPlaced(place: seq<Place>, q: seq<nat>, f: nat)
    requires f < |place| && f !in q
    requires forall i | 0 <= i < |q| :: q[i] < |place| && place[q[i]] == Queued
    requires forall g | 0 <= g < |place| :: place[g] == Queued ==> g in q
    ensures forall i | 0 <= i < |q + [f]| :: place[f := Queued][(q + [f])[i]] == Queued
    ensures forall g | 0 <= g < |place| :: place[f := Queued][g] == Queued ==> g in q + [f]
  {
  }

  lemma PointTailKeeps(b: Bundles, n: nat, h: nat, f: nat)
    requires ListOk(b, n) && Head(b.queue) == Some(h) && Last(b.queue) == Some(f)
    ensures ListOk(PointTail(b, h, Some(f)), n) && TailOk(PointTail(b, h, Some(f)), Right)
  {
  }

  lemma StartQueueKeeps(b: Bundles, n: nat, f: nat)
    requires ListOk(b, n) && f < n && b.queue == [] && b.next[f] == None && b.place[f] == Awake
    ensures ListOk(StartQueue(b, f), n) && TailOk(StartQueue(b, f), Right) && StartQueue(b, f).queue == [f]
  {
    assert b.queue + [f] == [f];
  }

  lemma TakeFrontKeeps(b: Bundles, n: nat, h: nat, u: nat)
    requires ListOk(b, n) && Head(b.queue) == Some(h)
    ensures ListOk(TakeFront(b, h, u), n)
    ensures b.next[h] == Head(b.queue[1..]) && b.queue == [h] + b.queue[1..] && h !in b.queue[1..]
    ensures b.next[h].Some? && b.tail[b.next[h].value] == Last(b.queue) ==> TailOk(TakeFront(b, h, u), Right)
    ensures b.next[h].None? ==> TailOk(TakeFront(b, h, u), Right) && b.queue == [h]
  {
    DropFront(b.next, b.queue);
    RemovePlaced(b.place, b.queue, u);
  }

  lemma DropFront(next: seq<Link>, q: seq<nat>)
    requires Linked(next, q) && NoDuplicates(q) && |q| > 0
    ensures Linked(next, q[1..]) && NoDuplicates(q[1..]) && q[0] !in q[1..] && q == [q[0]] + q[1..]
    ensures next[q[0]] == Head(q[1..])
  {
  }

  lemma RemovePlaced(place: seq<Place>, q: seq<nat>, u: nat)
    requires |q| > 0 && q[0] !in q[1..] && q == [q[0]] + q[1..]
    requires forall i | 0 <= i < |q| :: q[i] < |place| && place[q[i]] == Queued
    requires forall g | 0 <= g < |place| :: place[g] == Queued ==> g in q
    ensures forall i | 0 <= i < |q[1..]| :: place[q[0] := Hands(u)][q[1..][i]] == Queued
    ensures forall g | 0 <= g < |place| :: place[q[0] := Hands(u)][g] == Queued ==> g in q[1..]
  {
    forall i | 0 <= i < |q[1..]|
      ensures place[q[0] := Hands(u)][q[1..][i]] == Queued
    {
      assert q[1..][i] in q[1..] && q[1..][i] == q[i + 1];
    }
  }

  // Operations on a bundle that is not on the list.
  lemma ClearKeeps(b: Bundles, n: nat, h: nat, t: TailState)
    requires ListOk(b, n) && TailOk(b, t) && h < n && b.place[h] != Queued
    ensures ListOk(ClearNext(b, h), n) && TailOk(ClearNext(b, h), t)
    ensures ListOk(ClearTail(b, h), n) && TailOk(ClearTail(b, h), t)
  {
    assert h !in b.queue;
  }

  lemma PlaceKeeps(b: Bundles, n: nat, h: nat, t: TailState)
    requires ListOk(b, n) && TailOk(b, t) && h < n && b.place[h] != Queued
    ensures ListOk(Wake(b, h), n) && TailOk(Wake(b, h), t)
    ensures b.next[h] == None && b.tail[h] == None ==> ListOk(HandOver(b, h), n) && TailOk(HandOver(b, h), t)
  {
    assert h !in b.queue;
  }

  // FiberIsSwitched plays no part in the list.
  lemma MarkSwitchedKeeps(b: Bundles, n: nat, f: nat, t: TailState)
    requires ListOk(b, n) && TailOk(b, t)
    ensures ListOk(MarkSwitched(b, f), n) && TailOk(MarkSwitched(b, f), t)
  {
  }
}

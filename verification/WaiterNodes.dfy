/** Waiting fiber bundles as the linked nodes the source edits in place. The table's value, as
    WaiterList.Bundles, is what its methods are specified by. */
module WaiterNodes {
  import opened Options
  import opened WaiterList

  class WaitingFiberBundle {
    const FiberIndex: nat
    var FiberIsSwitched: bool
    var PinnedThreadIndex: Link
    var Next: WaitingFiberBundle?
    var QueueTail: WaitingFiberBundle?

    constructor (fiber: nat)
      ensures FiberIndex == fiber && !FiberIsSwitched && PinnedThreadIndex == None && Next == null && QueueTail == null
    {
      FiberIndex := fiber;
      FiberIsSwitched := false;
      PinnedThreadIndex := None;
      Next := null;
      QueueTail := null;
    }
  }

  function LinkOf(p: WaitingFiberBundle?): Link {
    if p == null then None else Some(p.FiberIndex)
  }

  // The bundles of all fibers; queue and place are the history that WaiterList keeps.
  class BundleTable {
    const nodes: seq<WaitingFiberBundle>
    ghost var queue: seq<nat>
    ghost var place: seq<Place>

    ghost predicate Valid()
      reads this, nodes
    {
      && |place| == |nodes|
      && (forall i | 0 <= i < |nodes| :: nodes[i].FiberIndex == i)
      && (forall i | 0 <= i < |nodes| :: nodes[i].Next == null || nodes[i].Next in nodes)
      && (forall i | 0 <= i < |nodes| :: nodes[i].QueueTail == null || nodes[i].QueueTail in nodes)
    }

    ghost function Value(): (b: Bundles)
      reads this, nodes
      ensures |b.next| == |b.tail| == |b.switched| == |nodes|
    {
      Bundles(seq(|nodes|, i requires 0 <= i < |nodes| reads nodes => LinkOf(nodes[i].Next)),
              seq(|nodes|, i requires 0 <= i < |nodes| reads nodes => LinkOf(nodes[i].QueueTail)),
              seq(|nodes|, i requires 0 <= i < |nodes| reads nodes => nodes[i].FiberIsSwitched),
              queue, place)
    }

    constructor (n: nat)
      ensures Valid() && |nodes| == n && Value() == NoBundles(n) && fresh(nodes)
    {
      var made: seq<WaitingFiberBundle> := [];
      for i := 0 to n
        invariant |made| == i && fresh(made)
        invariant forall k | 0 <= k < i :: made[k].FiberIndex == k && !made[k].FiberIsSwitched
        invariant forall k | 0 <= k < i :: made[k].Next == null && made[k].QueueTail == null
      {
        var node := new WaitingFiberBundle(i);
        made := made + [node];
      }
      nodes := made;
      queue := [];
      place := seq(n, _ => Awake);
    }

    // InitWaitingFiberBundle, and the zeroed declaration before it.
    method Initialise(f: nat, pinned: Link)
      requires Valid() && f < |nodes|
      modifies nodes[f]
      ensures Valid() && Value() == Fresh(old(Value()), f) && nodes[f].PinnedThreadIndex == pinned
    {
      nodes[f].FiberIsSwitched := false;
      nodes[f].PinnedThreadIndex := pinned;
      nodes[f].Next := null;
      nodes[f].QueueTail := null;
    }

    method Append(h: nat, f: nat)
      requires Valid() && h < |nodes| && f < |nodes| && nodes[h].QueueTail != null
      modifies this, nodes
      ensures Valid() && Value() == LinkBehind(old(Value()), h, f)
    {
      nodes[h].QueueTail.Next := nodes[f];
      queue := queue + [f];
      place := Set(place, f, Queued);
    }

    method SetQueueTail(h: nat, tail: WaitingFiberBundle?)
      requires Valid() && h < |nodes| && (tail == null || tail in nodes)
      modifies this, nodes
      ensures Valid() && Value() == PointTail(old(Value()), h, LinkOf(tail))
    {
      nodes[h].QueueTail := tail;
    }

    // The table's bundle f becomes the whole list.
    method Found(f: nat)
      requires Valid() && f < |nodes|
      modifies this, nodes
      ensures Valid() && Value() == StartQueue(old(Value()), f)
    {
      nodes[f].QueueTail := nodes[f];
      queue := queue + [f];
      place := Set(place, f, Queued);
    }

    method SetSwitched(f: nat)
      requires Valid() && f < |nodes|
      modifies this, nodes
      ensures Valid() && Value() == MarkSwitched(old(Value()), f)
    {
      nodes[f].FiberIsSwitched := true;
    }

    // The list now starts behind h.
    ghost method Unlist(h: nat, u: nat)
      requires Valid()
      modifies this
      ensures Valid() && Value() == TakeFront(old(Value()), h, u)
    {
      queue := if |queue| > 0 then queue[1..] else [];
      place := Set(place, h, Hands(u));
    }

    method ForgetNext(h: nat)
      requires Valid() && h < |nodes|
      modifies this, nodes
      ensures Valid() && Value() == ClearNext(old(Value()), h)
    {
      nodes[h].Next := null;
    }

    method ForgetTail(h: nat)
      requires Valid() && h < |nodes|
      modifies this, nodes
      ensures Valid() && Value() == ClearTail(old(Value()), h)
    {
      nodes[h].QueueTail := null;
    }

    ghost method Move(h: nat, to: Place)
      requires Valid()
      modifies this
      ensures Valid() && Value() == old(Value()).(place := Set(old(Value()).place, h, to))
    {
      place := Set(place, h, to);
    }
  }
}

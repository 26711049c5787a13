/** What a search for a high priority task run alone should come to, on plain sequences: which task it
    finds, in which order it looks, and what is left in every queue. Queues are oldest first. */
module SearchOrder {
  // TaskBundle, as far as TaskIsReadyToExecute can tell: a real task, or the dummy task of fiber w.
  datatype TaskBundle = Task(id: nat) | ReadyFiber(w: nat)

  type Tasks = seq<TaskBundle>
  type Queues = seq<Tasks>

  predicate IsReady(x: TaskBundle, switched: set<nat>) {
    x.Task? || x.w in switched
  }

  predicate NoneReady(q: Tasks, switched: set<nat>) {
    forall x | x in q :: !IsReady(x, switched)
  }

  function Reverse<T>(q: seq<T>): (r: seq<T>)
    ensures |r| == |q| && forall i | 0 <= i < |q| :: r[i] == q[|q| - 1 - i]
  {
    if q == [] then [] else Reverse(q[1..]) + [q[0]]
  }

  // How much of q is left once everything after its last ready task has been popped: 0 if none is ready.
  function LastReady(q: Tasks, switched: set<nat>): (m: nat)
    ensures m <= |q| && NoneReady(q[m..], switched) && (m > 0 ==> IsReady(q[m - 1], switched))
    ensures m == 0 <==> NoneReady(q, switched)
  {
    if q == [] then 0
    else if IsReady(q[|q| - 1], switched) then |q|
    else
      var m := LastReady(q[..|q| - 1], switched);
      assert q[m..] == q[..|q| - 1][m..] + [q[|q| - 1]];
      m
  }

  // The position of q's first ready task: |q| if none is ready.
  function FirstReady(q: Tasks, switched: set<nat>): (k: nat)
    ensures k <= |q| && NoneReady(q[..k], switched) && (k < |q| ==> IsReady(q[k], switched))
    ensures k == |q| <==> NoneReady(q, switched)
  {
    if q == [] || IsReady(q[0], switched) then 0
    else
      var k := FirstReady(q[1..], switched);
      assert q[..k + 1] == [q[0]] + q[1..][..k];
      k + 1
  }

  // ---- The order in which other threads are tried ----

  function Probe(start: nat, i: nat, n: nat): (v: nat)
    requires n >= 1
    ensures v < n
  {
    (start + i) % n
  }

  lemma ProbesDiffer(start: nat, i: nat, j: nat, n: nat)
    requires i < j < n
    ensures Probe(start, i, n) != Probe(start, j, n)
  {
    Splits(start + i, n);
    Splits(start + j, n);
    var m := (start + j) / n - (start + i) / n;
    assert j - i == m * n + Probe(start, j, n) - Probe(start, i, n);
    NotMultiple(j - i, m, n);
  }

  lemma NotMultiple(d: int, m: int, n: nat)
    requires 0 < d < n
    ensures d != m * n
  {
    if m >= 1 { assert m * n >= n; } else { assert m * n <= 0; }
  }

  // The probe at which thread v is tried.
  function ProbeOf(start: nat, v: nat, n: nat): (i: nat)
    requires v < n
    ensures i < n && Probe(start, i, n) == v
  {
    var d := start % n;
    var i := if v >= d then v - d else v + n - d;
    Splits(start, n);
    WrapsTo(start / n, d + i, v, n);
    i
  }

  lemma Splits(start: nat, n: nat)
    requires n >= 1
    ensures start == (start / n) * n + start % n
  {
  }

  lemma WrapsTo(q: nat, x: nat, v: nat, n: nat)
    requires v < n && (x == v || x == v + n)
    ensures (q * n + x) % n == v
  {
    var k, y := if x == v then q else q + 1, q * n + x;
    assert k * n == if x == v then q * n else q * n + n;
    Splits(y, n);
    if y % n < v { NotMultiple(v - y % n, y / n - k, n); } else if y % n > v { NotMultiple(y % n - v, k - y / n, n); }
  }

  // The threads in the order they are tried.
  function ProbeOrder(start: nat, n: nat): (order: seq<nat>)
    requires n >= 1
    ensures IsOrder(order, n) && forall i | 0 <= i < n :: order[i] == Probe(start, i, n)
  {
    forall i, j | 0 <= i < j < n ensures Probe(start, i, n) != Probe(start, j, n) { ProbesDiffer(start, i, j, n); }
    seq(n, i requires 0 <= i < n => Probe(start, i, n))
  }

  ghost predicate IsOrder(order: seq<nat>, n: nat) {
    && |order| == n
    && (forall i | 0 <= i < n :: order[i] < n)
    && (forall i, j | 0 <= i < j < n :: order[i] != order[j])
  }

  // Round the threads from start on: upwards, and from the last one to thread 0.
  ghost predicate InTurn(order: seq<nat>, start: nat, n: nat)
    requires n >= 1
  {
    && |order| == n && order[0] == start % n
    && forall i | 0 <= i < n - 1 :: order[i + 1] == if order[i] + 1 == n then 0 else order[i] + 1
  }

  // The probes go round the threads in turn, and so try every one of them exactly once.
  lemma EveryThreadOnce(start: nat, v: nat, n: nat)
    requires v < n
    ensures InTurn(ProbeOrder(start, n), start, n)
    ensures exists i | 0 <= i < n ::
      ProbeOrder(start, n)[i] == v && (forall j | 0 <= j < n && j != i :: ProbeOrder(start, n)[j] != v)
  {
    assert ProbeOrder(start, n)[ProbeOf(start, v, n)] == v;
    forall i | 0 <= i < n - 1
      ensures var order := ProbeOrder(start, n); order[i + 1] == if order[i] + 1 == n then 0 else order[i] + 1
    {
      NextProbe(start + i, n);
    }
  }

  lemma NextProbe(x: nat, n: nat)
    requires n >= 1
    ensures (x + 1) % n == if x % n + 1 == n then 0 else x % n + 1
  {
    Splits(x, n);
    var v := if x % n + 1 == n then 0 else x % n + 1;
    if v < n { WrapsTo(x / n, x % n + 1, v, n); }
  }

  // There is only one such order.
  lemma {:induction false} OnlyOneTurn(a: seq<nat>, b: seq<nat>, start: nat, n: nat, i: nat)
    requires i < n && InTurn(a, start, n) && InTurn(b, start, n)
    ensures a[i] == b[i]
  {
    if i > 0 { OnlyOneTurn(a, b, start, n, i - 1); }
  }

  // What the first i probes steal when they find nothing ready, in order.
  function Gather(queues: Queues, me: nat, order: seq<nat>, i: nat): Tasks
    requires IsOrder(order, |queues|) && i <= |queues|
  {
    if i == 0 then []
    else Gather(queues, me, order, i - 1) + (if order[i - 1] == me then [] else queues[order[i - 1]])
  }

  // What those probes leave.
  function Emptied(queues: Queues, me: nat, order: seq<nat>, i: nat): (r: Queues)
    requires IsOrder(order, |queues|) && i <= |queues|
    ensures |r| == |queues| && (me < |r| ==> r[me] == queues[me])
  {
    if i == 0 then queues
    else
      var before := Emptied(queues, me, order, i - 1);
      if order[i - 1] == me then before else before[order[i - 1] := []]
  }

  // The first probe from i on that finds a ready task: the number of threads if none does.
  function FirstVictim(queues: Queues, me: nat, order: seq<nat>, switched: set<nat>, i: nat): (j: nat)
    requires IsOrder(order, |queues|) && i <= |queues|
    ensures i <= j <= |queues|
    ensures forall k | i <= k < j :: order[k] == me || NoneReady(queues[order[k]], switched)
    ensures j < |queues| ==> order[j] != me && !NoneReady(queues[order[j]], switched)
    decreases |queues| - i
  {
    if i == |queues| then i
    else if order[i] != me && !NoneReady(queues[order[i]], switched) then i
    else FirstVictim(queues, me, order, switched, i + 1)
  }

  // The last of the first i probes that could steal anything, or else what was remembered before.
  function LastVictim(queues: Queues, me: nat, order: seq<nat>, i: nat, remembered: nat): nat
    requires IsOrder(order, |queues|) && i <= |queues|
  {
    if i == 0 then remembered
    else if order[i - 1] != me && queues[order[i - 1]] != [] then order[i - 1]
    else LastVictim(queues, me, order, i - 1, remembered)
  }

  // ---- The search ----

  datatype Outcome = Outcome(result: bool, next: TaskBundle, queues: Queues, lastSteal: nat)

  // Thread me pops its own queue down to a ready task; failing that it steals from the others, in
  // order, until it gets one. Whatever was not ready goes back on its own queue, last one first.
  function Search(queues: Queues, me: nat, start: nat, switched: set<nat>, buffer: Tasks,
                  held: TaskBundle): Outcome
    requires me < |queues|
  {
    var own := queues[me];
    var m := LastReady(own, switched);
    if m > 0 then
      Outcome(true, own[m - 1], queues[me := own[..m - 1] + own[m..] + Reverse(buffer)], start)
    else
      var order := ProbeOrder(start, |queues|);
      var j := FirstVictim(queues, me, order, switched, 0);
      var stolen, left := Gather(queues, me, order, j), Emptied(queues, me, order, j);
      if j == |queues| then
        Outcome(false, Last(Reverse(own) + stolen, held), left[me := Reverse(stolen) + own + Reverse(buffer)],
                LastVictim(queues, me, order, j, start))
      else
        var v := order[j];
        var k := FirstReady(queues[v], switched);
        Outcome(true, queues[v][k],
                left[v := queues[v][k + 1..]][me := Reverse(stolen + queues[v][..k]) + own + Reverse(buffer)], v)
  }

  // What a caller's location holds after the tasks q have been stored in it one by one.
  function Last(q: Tasks, held: TaskBundle): TaskBundle {
    if q == [] then held else q[|q| - 1]
  }

  // ---- What it guarantees ----

  // Occurrences of x in a queue, and in all of them.
  function Count<T(==)>(q: seq<T>, x: T): nat {
    if q == [] then 0 else (if q[0] == x then 1 else 0) + Count(q[1..], x)
  }

  function CountAll<T(==)>(queues: seq<seq<T>>, x: T): nat {
    if queues == [] then 0 else Count(queues[0], x) + CountAll(queues[1..], x)
  }

  lemma {:induction false} CountAppend<T>(a: seq<T>, b: seq<T>, x: T)
    ensures Count(a + b, x) == Count(a, x) + Count(b, x)
  {
    if a == [] {
      assert a + b == b;
    } else {
      assert (a + b)[1..] == a[1..] + b;
      CountAppend(a[1..], b, x);
    }
  }

  lemma CountSplit<T>(q: seq<T>, k: nat, x: T)
    requires k <= |q|
    ensures Count(q, x) == Count(q[..k], x) + Count(q[k..], x)
    ensures k < |q| ==> Count(q[k..], x) == (if q[k] == x then 1 else 0) + Count(q[k + 1..], x)
  {
    assert q == q[..k] + q[k..];
    CountAppend(q[..k], q[k..], x);
    if k < |q| { assert q[k..][1..] == q[k + 1..]; }
  }

  lemma {:induction false} CountUpdate<T>(queues: seq<seq<T>>, i: nat, q: seq<T>, x: T)
    requires i < |queues|
    ensures CountAll(queues[i := q], x) + Count(queues[i], x) == CountAll(queues, x) + Count(q, x)
  {
    if i == 0 {
      assert queues[0 := q][1..] == queues[1..];
    } else {
      assert queues[i := q][1..] == queues[1..][i - 1 := q];
      CountUpdate(queues[1..], i - 1, q, x);
    }
  }

  lemma {:induction false} CountReverse<T>(q: seq<T>, x: T)
    ensures Count(Reverse(q), x) == Count(q, x)
  {
    if q != [] {
      CountReverse(q[1..], x);
      CountAppend(Reverse(q[1..]), [q[0]], x);
      assert Count([q[0]], x) == if q[0] == x then 1 else 0;
    }
  }

  // A probe not yet made has its queue as it was.
  lemma {:induction false} NotYetEmptied(queues: Queues, me: nat, order: seq<nat>, i: nat, k: nat)
    requires IsOrder(order, |queues|) && i <= k < |queues|
    ensures Emptied(queues, me, order, i)[order[k]] == queues[order[k]]
    decreases i
  {
    if i > 0 { NotYetEmptied(queues, me, order, i - 1, k); }
  }

  // What one more probe does to the queues it leaves and to what has been stolen.
  ghost predicate OneProbe(left: Queues, stolen: Tasks, left': Queues, stolen': Tasks,
                           v: nat)
  {
    || (left' == left && stolen' == stolen)
    || (v < |left| && left' == left[v := []] && stolen' == stolen + left[v])
  }

  lemma OneProbeCounts(left: Queues, stolen: Tasks, left': Queues, stolen': Tasks,
                       v: nat, x: TaskBundle)
    requires OneProbe(left, stolen, left', stolen', v)
    ensures CountAll(left', x) + Count(stolen', x) == CountAll(left, x) + Count(stolen, x)
  {
    if left' != left || stolen' != stolen {
      CountUpdate(left, v, [], x);
      CountAppend(stolen, left[v], x);
    }
  }

  lemma OneMoreProbe(queues: Queues, me: nat, order: seq<nat>, i: nat)
    requires IsOrder(order, |queues|) && i < |queues|
    ensures OneProbe(Emptied(queues, me, order, i), Gather(queues, me, order, i),
                     Emptied(queues, me, order, i + 1), Gather(queues, me, order, i + 1), order[i])
  {
    NotYetEmptied(queues, me, order, i, i);
    if order[i] == me { assert Gather(queues, me, order, i + 1) == Gather(queues, me, order, i); }
  }

  lemma {:induction false} GatherConserves(queues: Queues, me: nat, order: seq<nat>, i: nat, x: TaskBundle)
    requires IsOrder(order, |queues|) && i <= |queues|
    ensures CountAll(Emptied(queues, me, order, i), x) + Count(Gather(queues, me, order, i), x) == CountAll(queues, x)
    decreases i
  {
    if i > 0 {
      GatherConserves(queues, me, order, i - 1, x);
      OneMoreProbe(queues, me, order, i - 1);
      OneProbeCounts(Emptied(queues, me, order, i - 1), Gather(queues, me, order, i - 1),
                     Emptied(queues, me, order, i), Gather(queues, me, order, i), order[i - 1], x);
    }
  }

  // No task is lost or made up: every task is in the queues, or is the one found, as often as it was
  // in the queues and the buffer before.
  lemma SearchConserves(queues: Queues, me: nat, start: nat, switched: set<nat>, buffer: Tasks,
                        held: TaskBundle, x: TaskBundle)
    requires me < |queues|
    ensures var o := Search(queues, me, start, switched, buffer, held);
      CountAll(o.queues, x) + (if o.result && o.next == x then 1 else 0) == CountAll(queues, x) + Count(buffer, x)
  {
    var own, order := queues[me], ProbeOrder(start, |queues|);
    var m, j := LastReady(own, switched), FirstVictim(queues, me, order, switched, 0);
    if m > 0 {
      CountSplit(own, m - 1, x);
      CountAppend(own[..m - 1], own[m..], x);
      PutBackCounts(queues, queues, me, own[..m - 1] + own[m..], buffer, x);
    } else {
      var stolen, left := Gather(queues, me, order, j), Emptied(queues, me, order, j);
      GatherConserves(queues, me, order, j, x);
      if j == |queues| {
        CountReverse(stolen, x);
        CountAppend(Reverse(stolen), own, x);
        PutBackCounts(queues, left, me, Reverse(stolen) + own, buffer, x);
      } else {
        var v := order[j];
        var k, q := FirstReady(queues[v], switched), queues[v];
        NotYetEmptied(queues, me, order, j, j);
        StealCounts(queues, left, stolen, v, k, me, buffer, x);
      }
    }
  }

  // Stealing v's queue up to its k-th task, and putting back all but that one.
  lemma StealCounts(queues: Queues, left: Queues, stolen: Tasks, v: nat, k: nat, me: nat,
                    buffer: Tasks, x: TaskBundle)
    requires me < |queues| == |left| && v < |left| && v != me && left[me] == queues[me] && k < |left[v]|
    ensures var q := left[v];
      CountAll(left[v := q[k + 1..]][me := Reverse(stolen + q[..k]) + queues[me] + Reverse(buffer)], x)
      + (if q[k] == x then 1 else 0)
        == CountAll(left, x) + Count(stolen, x) + Count(buffer, x)
  {
    var q := left[v];
    var put := stolen + q[..k];
    CountUpdate(left, v, q[k + 1..], x);
    CountSplit(q, k, x);
    CountAppend(stolen, q[..k], x);
    CountReverse(put, x);
    CountAppend(Reverse(put), queues[me], x);
    PutBackCounts(queues, left[v := q[k + 1..]], me, Reverse(put) + queues[me], buffer, x);
  }

  lemma PutBackCounts(queues: Queues, left: Queues, me: nat, q: Tasks, buffer: Tasks,
                      x: TaskBundle)
    requires me < |queues| == |left| && left[me] == queues[me]
    ensures CountAll(left[me := q + Reverse(buffer)], x) ==
      CountAll(left, x) - Count(queues[me], x) + Count(q, x) + Count(buffer, x)
  {
    CountReverse(buffer, x);
    CountAppend(q, Reverse(buffer), x);
    CountUpdate(left, me, q + Reverse(buffer), x);
  }

  // It finds a task exactly when some queue holds a ready one, and what it finds is ready: a real task,
  // or a fiber that has been switched away from.
  lemma SearchFindsReady(queues: Queues, me: nat, start: nat, switched: set<nat>, buffer: Tasks,
                         held: TaskBundle)
    requires me < |queues|
    ensures var o := Search(queues, me, start, switched, buffer, held);
      && (o.result <==> exists v :: 0 <= v < |queues| && !NoneReady(queues[v], switched))
      && (o.result ==> o.next.Task? || o.next.w in switched)
  {
    var own, order := queues[me], ProbeOrder(start, |queues|);
    if LastReady(own, switched) > 0 {
      assert own[LastReady(own, switched) - 1] in own;
    } else {
      assert NoneReady(own, switched) by { assert own[0..] == own; }
      var j := FirstVictim(queues, me, order, switched, 0);
      forall v | 0 <= v < |queues| && j == |queues|
        ensures NoneReady(queues[v], switched)
      {
        assert order[ProbeOf(start, v, |queues|)] == v;
      }
    }
  }

  // A failed search leaves everyone else's queue empty and everything they had on its own: what was
  // stolen, last first, and then its own tasks in their old order.
  lemma FailedSearchCollects(queues: Queues, me: nat, start: nat, switched: set<nat>, held: TaskBundle, v: nat)
    requires me < |queues| && v < |queues| && !Search(queues, me, start, switched, [], held).result
    ensures var after := Search(queues, me, start, switched, [], held).queues;
      && |after| == |queues|
      && (v != me ==> after[v] == [])
      && after[me] == Reverse(Gather(queues, me, ProbeOrder(start, |queues|), |queues|)) + queues[me]
  {
    if v != me { AllEmptied(queues, me, ProbeOrder(start, |queues|), |queues|, ProbeOf(start, v, |queues|)); }
  }

  lemma {:induction false} AllEmptied(queues: Queues, me: nat, order: seq<nat>, i: nat, k: nat)
    requires IsOrder(order, |queues|) && k < i <= |queues| && order[k] != me
    ensures Emptied(queues, me, order, i)[order[k]] == []
    decreases i
  {
    if k < i - 1 { AllEmptied(queues, me, order, i - 1, k); }
  }

  // A ready task of its own is found first: the one pushed last. It leaves the queue, the others stay as
  // they are, the buffer goes on behind them in reverse, and no other thread is touched or remembered.
  lemma OwnTaskComesFirst(queues: Queues, me: nat, start: nat, switched: set<nat>, buffer: Tasks, held: TaskBundle)
    requires me < |queues| && !NoneReady(queues[me], switched)
    ensures var own, o := queues[me], Search(queues, me, start, switched, buffer, held);
      && o.result && o.lastSteal == start
      && exists k :: 0 <= k < |own| && own[k] == o.next && NoneReady(own[k + 1..], switched)
           && o.queues == queues[me := own[..k] + own[k + 1..] + Reverse(buffer)]
  {
    var own := queues[me];
    var m := LastReady(own, switched);
    assert own[m - 1] == Search(queues, me, start, switched, buffer, held).next;
    assert own[m - 1 + 1..] == own[m..];
  }

  // What is remembered for the next search: the last thread that anything was stolen from; with nothing
  // stolen it stays as it was.
  lemma RemembersLastVictim(queues: Queues, me: nat, start: nat, switched: set<nat>, buffer: Tasks, held: TaskBundle)
    requires me < |queues|
    ensures var o := Search(queues, me, start, switched, buffer, held);
      || (o.lastSteal == start && (NoneReady(queues[me], switched) ==>
            forall v | 0 <= v < |queues| && v != me :: queues[v] == []))
      || (o.lastSteal < |queues| && o.lastSteal != me && queues[o.lastSteal] != [] && NoneReady(queues[me], switched)
          && (!o.result ==> StolenLast(queues, me, start, o.lastSteal))
          && (o.result ==> o.next in queues[o.lastSteal]))
  {
    var order := ProbeOrder(start, |queues|);
    if NoneReady(queues[me], switched) {
      var j := FirstVictim(queues, me, order, switched, 0);
      if j == |queues| {
        LastVictimIsLast(queues, me, order, |queues|, start);
        forall v | 0 <= v < |queues| && v != me
                   && (forall k | 0 <= k < |queues| :: order[k] == me || queues[order[k]] == [])
          ensures queues[v] == []
        {
          assert order[ProbeOf(start, v, |queues|)] == v;
        }
      }
    } else {
      OwnTaskComesFirst(queues, me, start, switched, buffer, held);
    }
  }

  // Thread v has something to steal, and no thread tried after it has.
  ghost predicate StolenLast(queues: Queues, me: nat, start: nat, v: nat)
    requires me < |queues|
  {
    var order := ProbeOrder(start, |queues|);
    exists i :: 0 <= i < |queues| && order[i] == v != me && queues[v] != []
      && forall k | i < k < |queues| :: order[k] == me || queues[order[k]] == []
  }

  lemma {:induction false} LastVictimIsLast(queues: Queues, me: nat, order: seq<nat>, i: nat, remembered: nat)
    requires IsOrder(order, |queues|) && i <= |queues|
    ensures var v := LastVictim(queues, me, order, i, remembered);
      || (v == remembered && forall k | 0 <= k < i :: order[k] == me || queues[order[k]] == [])
      || (exists j :: 0 <= j < i && order[j] == v != me && queues[v] != []
            && forall k | j < k < i :: order[k] == me || queues[order[k]] == [])
  {
    if i > 0 { LastVictimIsLast(queues, me, order, i - 1, remembered); }
  }

  // A search that steals what it returns has passed over every ready task that is not behind it: none
  // is on its own queue, on a queue tried before, or in front of it.
  lemma StolenTaskIsFirstReady(queues: Queues, me: nat, start: nat, order: seq<nat>, switched: set<nat>,
                               held: TaskBundle)
    requires me < |queues| && NoneReady(queues[me], switched) && Search(queues, me, start, switched, [], held).result
    requires InTurn(order, start, |queues|)
    ensures IsOrder(order, |queues|)
    ensures var o := Search(queues, me, start, switched, [], held);
      exists j, k :: 0 <= j < |queues| && 0 <= k < |queues[order[j]]|
        && order[j] == o.lastSteal != me && o.next == queues[order[j]][k] && NoneReady(queues[order[j]][..k], switched)
        && (forall i | 0 <= i < j :: NoneReady(queues[order[i]], switched))
        && o.queues[order[j]] == queues[order[j]][k + 1..]
        && o.queues[me] == Reverse(Gather(queues, me, order, j) + queues[order[j]][..k]) + queues[me]
  {
    assert order == ProbeOrder(start, |queues|) by {
      forall i | 0 <= i < |queues|
        ensures order[i] == ProbeOrder(start, |queues|)[i]
      {
        EveryThreadOnce(start, i, |queues|);
        OnlyOneTurn(order, ProbeOrder(start, |queues|), start, |queues|, i);
      }
    }
    var j := FirstVictim(queues, me, order, switched, 0);
    var k := FirstReady(queues[order[j]], switched);
    assert queues[order[j]][k] == Search(queues, me, start, switched, [], held).next;
  }

  // ---- The search for a low priority task ----

  // The first probe from i on that finds anything.
  function FirstNonEmpty(queues: Queues, me: nat, order: seq<nat>, i: nat): (j: nat)
    requires IsOrder(order, |queues|) && i <= |queues|
    ensures i <= j <= |queues|
    ensures forall k | i <= k < j :: order[k] == me || queues[order[k]] == []
    ensures j < |queues| ==> order[j] != me && queues[order[j]] != []
    decreases |queues| - i
  {
    if i == |queues| then i
    else if order[i] != me && queues[order[i]] != [] then i
    else FirstNonEmpty(queues, me, order, i + 1)
  }

  // Takes whatever it finds first.
  function SearchLow(queues: Queues, me: nat, start: nat, held: TaskBundle): Outcome
    requires me < |queues|
  {
    var own := queues[me];
    if own != [] then Outcome(true, own[|own| - 1], queues[me := own[..|own| - 1]], start)
    else
      var order := ProbeOrder(start, |queues|);
      var j := FirstNonEmpty(queues, me, order, 0);
      if j == |queues| then Outcome(false, held, queues, start)
      else Outcome(true, queues[order[j]][0], queues[order[j] := queues[order[j]][1..]], order[j])
  }

  // Low priority queues hold no ready fibers. There the two searches come to the same, so what is
  // proved of the one holds of the other.
  lemma SearchLowIsSearch(queues: Queues, me: nat, start: nat, switched: set<nat>, held: TaskBundle)
    requires me < |queues|
    requires forall v, x | 0 <= v < |queues| && x in queues[v] :: x.Task?
    ensures SearchLow(queues, me, start, held) == Search(queues, me, start, switched, [], held)
  {
    var own, order := queues[me], ProbeOrder(start, |queues|);
    if own != [] {
      assert own[|own| - 1] in own;
      assert IsReady(own[|own| - 1], switched);
      AllReady(own, switched);
      assert own[..|own| - 1] + own[|own|..] + [] == own[..|own| - 1];
    } else {
      var j := FirstNonEmpty(queues, me, order, 0);
      SameVictim(queues, me, order, switched, 0);
      NothingGathered(queues, me, order, j, start);
      assert [] + own + [] == own;
      assert queues[me := own] == queues;
      if j < |queues| {
        var q := queues[order[j]];
        assert q[0] in q;
        assert [] + q[..0] == [];
        assert queues[order[j] := q[1..]][me := own] == queues[order[j] := q[1..]];
      }
    }
  }

  lemma AllReady(q: Tasks, switched: set<nat>)
    requires forall x | x in q :: x.Task?
    ensures LastReady(q, switched) == |q| && (q != [] ==> FirstReady(q, switched) == 0)
      && (NoneReady(q, switched) <==> q == [])
  {
    if q != [] { assert q[0] in q && q[|q| - 1] in q; }
  }

  lemma SameVictim(queues: Queues, me: nat, order: seq<nat>, switched: set<nat>, i: nat)
    requires IsOrder(order, |queues|) && i <= |queues|
    requires forall v, x | 0 <= v < |queues| && x in queues[v] :: x.Task?
    ensures FirstNonEmpty(queues, me, order, i) == FirstVictim(queues, me, order, switched, i)
    decreases |queues| - i
  {
    if i < |queues| {
      AllReady(queues[order[i]], switched);
      SameVictim(queues, me, order, switched, i + 1);
    }
  }

  lemma {:induction false} NothingGathered(queues: Queues, me: nat, order: seq<nat>, i: nat, remembered: nat)
    requires IsOrder(order, |queues|) && i <= |queues|
    requires forall k | 0 <= k < i :: order[k] == me || queues[order[k]] == []
    ensures Gather(queues, me, order, i) == [] && Emptied(queues, me, order, i) == queues
    ensures LastVictim(queues, me, order, i, remembered) == remembered
  {
    if i > 0 { NothingGathered(queues, me, order, i - 1, remembered); }
  }
}

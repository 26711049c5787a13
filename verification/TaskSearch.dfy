/** The scheduler's search for a task as the source writes it, over heap queues and a put-back buffer,
    run by one thread while the others stay out of the queues. Its methods compute the functions Search
    and SearchLow of SearchOrder, whose properties are proved there. */
module TaskSearch {
  import opened SearchOrder
  import opened WaitFreeQueues

  type Queue = WaitFreeQueue<TaskBundle>

  // The two share no object.
  ghost predicate Apart(p: Queue, q: Queue)
    reads p, q
  {
    p != q && p.m_array != q.m_array && p.m_array.m_items != q.m_array.m_items
  }

  lemma LastReadyIs(q: Tasks, k: nat, switched: set<nat>)
    requires k <= |q| && NoneReady(q[k..], switched) && (k > 0 ==> IsReady(q[k - 1], switched))
    ensures LastReady(q, switched) == k
  {
  }

  lemma FirstReadyIs(q: Tasks, k: nat, switched: set<nat>)
    requires k <= |q| && NoneReady(q[..k], switched) && (k < |q| ==> IsReady(q[k], switched))
    ensures FirstReady(q, switched) == k
  {
  }

  lemma FirstVictimIs(queues: Queues, me: nat, order: seq<nat>, switched: set<nat>, j: nat)
    requires IsOrder(order, |queues|) && j <= |queues|
    requires AllMiss(queues, me, order, switched, j)
    requires j < |queues| ==> order[j] != me && !NoneReady(queues[order[j]], switched)
    ensures FirstVictim(queues, me, order, switched, 0) == j
  {
  }

  lemma {:induction false} ReverseAppend(a: Tasks, b: Tasks)
    ensures Reverse(a + b) == Reverse(b) + Reverse(a)
  {
    if a == [] {
      assert a + b == b && Reverse(b) + [] == Reverse(b);
    } else {
      assert (a + b)[1..] == a[1..] + b;
      ReverseAppend(a[1..], b);
      assert Reverse(b) + Reverse(a[1..]) + [a[0]] == Reverse(b) + (Reverse(a[1..]) + [a[0]]);
    }
  }

  lemma {:induction false} ReverseTwice(q: Tasks)
    ensures Reverse(Reverse(q)) == q
  {
    if q != [] {
      ReverseTwice(q[1..]);
      ReverseAppend(Reverse(q[1..]), [q[0]]);
      assert Reverse([q[0]]) == [q[0]] && [q[0]] + q[1..] == q;
    }
  }

  lemma FirstNonEmptyIs(queues: Queues, me: nat, order: seq<nat>, j: nat)
    requires IsOrder(order, |queues|) && j <= |queues|
    requires forall k | 0 <= k < j :: order[k] == me || queues[order[k]] == []
    requires j < |queues| ==> order[j] != me && queues[order[j]] != []
    ensures FirstNonEmpty(queues, me, order, 0) == j
  {
  }

  // Putting back what was popped from own and then stolen.
  lemma ReversePutBack(buffer: Tasks, own: Tasks, stolen: Tasks)
    ensures Reverse(buffer + Reverse(own) + stolen) == Reverse(stolen) + own + Reverse(buffer)
  {
    ReverseAppend(buffer + Reverse(own), stolen);
    ReverseAppend(buffer, Reverse(own));
    ReverseTwice(own);
    assert Reverse(stolen) + (own + Reverse(buffer)) == Reverse(stolen) + own + Reverse(buffer);
  }

  lemma LastOfTwo(a: Tasks, b: Tasks, held: TaskBundle)
    ensures Last(a + b, held) == Last(b, Last(a, held))
  {
    if b == [] { assert a + b == a; }
  }

  // None of the first i probes finds a ready task.
  ghost predicate AllMiss(before: Queues, me: nat, order: seq<nat>, switched: set<nat>, i: nat)
    requires IsOrder(order, |before|) && i <= |before|
  {
    forall k | 0 <= k < i :: order[k] == me || NoneReady(before[order[k]], switched)
  }

  lemma OneMoreMiss(before: Queues, me: nat, order: seq<nat>, switched: set<nat>, i: nat)
    requires IsOrder(order, |before|) && i < |before| && AllMiss(before, me, order, switched, i)
    requires order[i] == me || NoneReady(before[order[i]], switched)
    ensures AllMiss(before, me, order, switched, i + 1)
  {
  }

  // Where things stand after i probes without success, thread me's own queue being empty.
  ghost predicate Missed(before: Queues, me: nat, order: seq<nat>, i: nat, taskBuffer: Tasks, held: TaskBundle,
                         nextTask: TaskBundle, buffer: Tasks, contents: Queues)
    requires IsOrder(order, |before|) && i <= |before| && me < |before|
  {
    && contents == Emptied(before, me, order, i)[me := []]
    && buffer == taskBuffer + Gather(before, me, order, i)
    && nextTask == Last(Gather(before, me, order, i), held)
  }

  // And after probe j has found a ready task.
  ghost predicate Stole(before: Queues, me: nat, order: seq<nat>, j: nat, switched: set<nat>, taskBuffer: Tasks,
                        nextTask: TaskBundle, buffer: Tasks, contents: Queues)
    requires IsOrder(order, |before|) && j < |before| && me < |before|
  {
    var v := order[j];
    var k := FirstReady(before[v], switched);
    && v != me && k < |before[v]| && nextTask == before[v][k]
    && buffer == taskBuffer + Gather(before, me, order, j) + before[v][..k]
    && contents == Emptied(before, me, order, j)[me := []][v := before[v][k + 1..]]
  }

  // How probing the other threads ends, at probe j: with a stolen task, or with all probes made.
  ghost predicate StealingEnded(before: Queues, me: nat, start: nat, switched: set<nat>, taskBuffer: Tasks,
                                held: TaskBundle, j: nat, result: bool, nextTask: TaskBundle, buffer: Tasks,
                                contents: Queues, remembered: nat)
    requires me < |before|
  {
    var order := ProbeOrder(start, |before|);
    && j <= |before| && (result <==> j < |before|) && AllMiss(before, me, order, switched, j)
    && (result ==>
          Stole(before, me, order, j, switched, taskBuffer, nextTask, buffer, contents) && remembered == order[j])
    && (!result ==>
          && Missed(before, me, order, j, taskBuffer, held, nextTask, buffer, contents)
          && remembered == LastVictim(before, me, order, j, start))
  }

  // What it then remembers.
  lemma ProbeRemembers(before: Queues, me: nat, order: seq<nat>, i: nat, start: nat, steals: seq<nat>)
    requires IsOrder(order, |before|) && me < |before| == |steals| && i < |before|
    ensures steals[me := LastVictim(before, me, order, i + 1, start)] ==
      if order[i] != me && before[order[i]] != []
      then steals[me := LastVictim(before, me, order, i, start)][me := order[i]]
      else steals[me := LastVictim(before, me, order, i, start)]
  {
  }

  // What the phases leave, once the buffer is put back, is what Search says: when a ready task was popped,
  lemma SearchPopped(before: Queues, me: nat, start: nat, switched: set<nat>, taskBuffer: Tasks, held: TaskBundle,
                     result: bool, nextTask: TaskBundle, buffer: Tasks, contents: Queues)
    requires me < |before| && LastReady(before[me], switched) > 0
    requires PopEnded(before, me, switched, taskBuffer, held, result, nextTask, buffer, contents)
    ensures Search(before, me, start, switched, taskBuffer, held) ==
      Outcome(result, nextTask, contents[me := contents[me] + Reverse(buffer)], start)
  {
    var own := before[me];
    var m := LastReady(own, switched);
    ReverseAppend(taskBuffer, Reverse(own[m..]));
    ReverseTwice(own[m..]);
    assert own[..m - 1] + (own[m..] + Reverse(taskBuffer)) == own[..m - 1] + own[m..] + Reverse(taskBuffer);
  }

  // when one was stolen,
  lemma SearchStole(before: Queues, me: nat, start: nat, switched: set<nat>, taskBuffer: Tasks, held: TaskBundle,
                    j: nat, nextTask: TaskBundle, buffer: Tasks, contents: Queues)
    requires me < |before| && LastReady(before[me], switched) == 0 && j < |before|
    requires Stole(before, me, ProbeOrder(start, |before|), j, switched, taskBuffer + Reverse(before[me]), nextTask,
                   buffer, contents)
    requires AllMiss(before, me, ProbeOrder(start, |before|), switched, j)
    ensures Search(before, me, start, switched, taskBuffer, held) ==
      Outcome(true, nextTask, contents[me := contents[me] + Reverse(buffer)], ProbeOrder(start, |before|)[j])
  {
    var own, order := before[me], ProbeOrder(start, |before|);
    FirstVictimIs(before, me, order, switched, j);
    var stolen, some := Gather(before, me, order, j), before[order[j]][..FirstReady(before[order[j]], switched)];
    assert taskBuffer + Reverse(own) + stolen + some == taskBuffer + Reverse(own) + (stolen + some);
    ReversePutBack(taskBuffer, own, stolen + some);
    OverwriteMe(Emptied(before, me, order, j), me, order[j], before[order[j]][|some| + 1..], Reverse(buffer));
  }

  // and when there was none.
  lemma SearchMissed(before: Queues, me: nat, start: nat, switched: set<nat>, taskBuffer: Tasks, held: TaskBundle,
                     nextTask: TaskBundle, buffer: Tasks, contents: Queues)
    requires me < |before| && LastReady(before[me], switched) == 0
    requires var order := ProbeOrder(start, |before|);
      && Missed(before, me, order, |before|, taskBuffer + Reverse(before[me]), Last(Reverse(before[me]), held),
                nextTask, buffer, contents)
      && AllMiss(before, me, order, switched, |before|)
    ensures Search(before, me, start, switched, taskBuffer, held) ==
      Outcome(false, nextTask, contents[me := contents[me] + Reverse(buffer)],
              LastVictim(before, me, ProbeOrder(start, |before|), |before|, start))
  {
    var own, order := before[me], ProbeOrder(start, |before|);
    FirstVictimIs(before, me, order, switched, |before|);
    var stolen, left := Gather(before, me, order, |before|), Emptied(before, me, order, |before|);
    ReversePutBack(taskBuffer, own, stolen);
    LastOfTwo(Reverse(own), stolen, held);
    assert [] + Reverse(buffer) == Reverse(buffer);
    assert left[me := []][me := Reverse(buffer)] == left[me := Reverse(buffer)];
  }

  lemma SearchStolen(before: Queues, me: nat, start: nat, switched: set<nat>, taskBuffer: Tasks, held: TaskBundle,
                     j: nat, result: bool, nextTask: TaskBundle, buffer: Tasks, contents: Queues, remembered: nat)
    requires me < |before| && LastReady(before[me], switched) == 0
    requires StealingEnded(before, me, start, switched, taskBuffer + Reverse(before[me]),
                           Last(Reverse(before[me]), held), j,
                           result, nextTask, buffer, contents, remembered)
    ensures Search(before, me, start, switched, taskBuffer, held) ==
      Outcome(result, nextTask, contents[me := contents[me] + Reverse(buffer)], remembered)
  {
    if result {
      SearchStole(before, me, start, switched, taskBuffer, held, j, nextTask, buffer, contents);
    } else {
      SearchMissed(before, me, start, switched, taskBuffer, held, nextTask, buffer, contents);
    }
  }

  lemma OverwriteMe(left: Queues, me: nat, v: nat, x: Tasks, y: Tasks)
    requires me < |left| && v < |left| && v != me
    ensures left[me := []][v := x][me := [] + y] == left[v := x][me := y]
  {
    assert [] + y == y;
  }

  // Where things stand once all but k of thread me's own tasks have been popped, none of them ready.
  ghost predicate Popped(before: Queues, me: nat, k: nat, switched: set<nat>, taskBuffer: Tasks, held: TaskBundle,
                         nextTask: TaskBundle, buffer: Tasks, contents: Queues)
    requires me < |before| && k <= |before[me]|
  {
    var own := before[me];
    && NoneReady(own[k..], switched)
    && contents == before[me := own[..k]]
    && buffer == taskBuffer + Reverse(own[k..])
    && nextTask == Last(Reverse(own[k..]), held)
  }

  // One more task popped, or stolen, that leaves k of own, or all but the first k + 1 of q.
  lemma PopOne(before: Queues, me: nat, k: nat, switched: set<nat>, taskBuffer: Tasks, held: TaskBundle,
               nextTask: TaskBundle, buffer: Tasks, contents: Queues)
    requires me < |before| && 0 < k <= |before[me]|
    requires Popped(before, me, k, switched, taskBuffer, held, nextTask, buffer, contents)
    ensures var own := before[me];
      && contents[me] == own[..k] && own[..k][k - 1] == own[k - 1]
      && contents[me := own[..k][..k - 1]] == before[me := own[..k - 1]]
      && (!IsReady(own[k - 1], switched) ==>
            Popped(before, me, k - 1, switched, taskBuffer, held, own[k - 1], buffer + [own[k - 1]],
                   before[me := own[..k - 1]]))
  {
    var own := before[me];
    assert own[k - 1..] == [own[k - 1]] + own[k..] && own[k - 1..][1..] == own[k..];
    assert own[..k][..k - 1] == own[..k - 1];
    assert buffer + [own[k - 1]] == taskBuffer + (Reverse(own[k..]) + [own[k - 1]]);
  }

  // How popping ends: with the last ready task in hand, or the queue empty.
  ghost predicate PopEnded(before: Queues, me: nat, switched: set<nat>, taskBuffer: Tasks, held: TaskBundle,
                           result: bool, nextTask: TaskBundle, buffer: Tasks, contents: Queues)
    requires me < |before|
  {
    var own := before[me];
    var m := LastReady(own, switched);
    && (result <==> m > 0)
    && nextTask == (if m > 0 then own[m - 1] else Last(Reverse(own), held))
    && buffer == taskBuffer + Reverse(own[m..])
    && contents == before[me := if m > 0 then own[..m - 1] else []]
  }

  lemma PopFindsNothing(before: Queues, me: nat, switched: set<nat>, taskBuffer: Tasks, held: TaskBundle,
                        nextTask: TaskBundle, buffer: Tasks, contents: Queues)
    requires me < |before| && Popped(before, me, 0, switched, taskBuffer, held, nextTask, buffer, contents)
    ensures PopEnded(before, me, switched, taskBuffer, held, false, nextTask, buffer, contents)
  {
    var own := before[me];
    assert own[0..] == own && own[..0] == [];
    LastReadyIs(own, 0, switched);
  }

  lemma PopFindsTask(before: Queues, me: nat, k: nat, switched: set<nat>, taskBuffer: Tasks, held: TaskBundle,
                     nextTask: TaskBundle, buffer: Tasks, contents: Queues)
    requires me < |before| && 0 < k <= |before[me]| && IsReady(before[me][k - 1], switched)
    requires Popped(before, me, k, switched, taskBuffer, held, nextTask, buffer, contents)
    ensures PopEnded(before, me, switched, taskBuffer, held, true, before[me][k - 1], buffer,
                     before[me := before[me][..k - 1]])
  {
    LastReadyIs(before[me], k, switched);
  }

  // The same for stealing from thread v: the first k of what it had.
  ghost predicate StoleSome(before: Queues, v: nat, k: nat, switched: set<nat>, taskBuffer: Tasks, held: TaskBundle,
                            nextTask: TaskBundle, buffer: Tasks, contents: Queues)
    requires v < |before| && k <= |before[v]|
  {
    var q := before[v];
    && NoneReady(q[..k], switched)
    && contents == before[v := q[k..]]
    && buffer == taskBuffer + q[..k]
    && nextTask == Last(q[..k], held)
  }

  lemma StealOne(before: Queues, v: nat, k: nat, switched: set<nat>, taskBuffer: Tasks, held: TaskBundle,
                 nextTask: TaskBundle, buffer: Tasks, contents: Queues)
    requires v < |before| && k < |before[v]|
    requires StoleSome(before, v, k, switched, taskBuffer, held, nextTask, buffer, contents)
    ensures var q := before[v];
      && contents[v] == q[k..] && q[k..][0] == q[k]
      && contents[v := q[k..][1..]] == before[v := q[k + 1..]]
      && (!IsReady(q[k], switched) ==>
            StoleSome(before, v, k + 1, switched, taskBuffer, held, q[k], buffer + [q[k]], before[v := q[k + 1..]]))
  {
    var q := before[v];
    assert q[k..][1..] == q[k + 1..] && q[..k + 1] == q[..k] + [q[k]];
    assert buffer + [q[k]] == taskBuffer + (q[..k] + [q[k]]);
  }

  // How stealing from v ends: with its first ready task in hand, or its queue empty.
  ghost predicate StealEnded(before: Queues, v: nat, switched: set<nat>, taskBuffer: Tasks, held: TaskBundle,
                             result: bool, nextTask: TaskBundle, buffer: Tasks, contents: Queues)
    requires v < |before|
  {
    var q := before[v];
    var k := FirstReady(q, switched);
    && (result <==> k < |q|)
    && nextTask == (if k < |q| then q[k] else Last(q, held))
    && buffer == taskBuffer + (if k < |q| then q[..k] else q)
    && contents == before[v := if k < |q| then q[k + 1..] else []]
  }

  lemma StealEnds(before: Queues, v: nat, k: nat, switched: set<nat>, taskBuffer: Tasks, held: TaskBundle,
                  nextTask: TaskBundle, buffer: Tasks, contents: Queues)
    requires v < |before| && k <= |before[v]|
    requires StoleSome(before, v, k, switched, taskBuffer, held, nextTask, buffer, contents)
    ensures var q := before[v];
      if k == |q| then StealEnded(before, v, switched, taskBuffer, held, false, nextTask, buffer, contents)
      else IsReady(q[k], switched) ==>
             StealEnded(before, v, switched, taskBuffer, held, true, q[k], buffer, before[v := q[k + 1..]])
  {
    var q := before[v];
    if k == |q| { assert q[..k] == q && q[k..] == []; }
    if k == |q| || IsReady(q[k], switched) { FirstReadyIs(q, k, switched); }
  }

  // A probe of the thread itself leaves things as they are.
  lemma ProbeSelf(before: Queues, me: nat, order: seq<nat>, i: nat, taskBuffer: Tasks, held: TaskBundle,
                  nextTask: TaskBundle, buffer: Tasks, contents: Queues)
    requires IsOrder(order, |before|) && me < |before| && i < |before| && order[i] == me
    requires Missed(before, me, order, i, taskBuffer, held, nextTask, buffer, contents)
    ensures Missed(before, me, order, i + 1, taskBuffer, held, nextTask, buffer, contents)
  {
    assert Gather(before, me, order, i) + [] == Gather(before, me, order, i);
  }

  // A probe of another, from where the state is `next0`, `buffer0` and `contents0`.
  lemma ProbeOther(before: Queues, me: nat, order: seq<nat>, i: nat, switched: set<nat>, taskBuffer: Tasks,
                   held: TaskBundle, next0: TaskBundle, buffer0: Tasks, contents0: Queues,
                   result: bool, nextTask: TaskBundle, buffer: Tasks, contents: Queues)
    requires IsOrder(order, |before|) && me < |before| == |contents0| && i < |before| && order[i] != me
    requires Missed(before, me, order, i, taskBuffer, held, next0, buffer0, contents0)
    requires StealEnded(contents0, order[i], switched, buffer0, next0, result, nextTask, buffer, contents)
    ensures result ==> Stole(before, me, order, i, switched, taskBuffer, nextTask, buffer, contents)
    ensures !result ==> NoneReady(before[order[i]], switched)
    ensures !result ==> Missed(before, me, order, i + 1, taskBuffer, held, nextTask, buffer, contents)
  {
    NotYetEmptied(before, me, order, i, i);
    var stolen, q := Gather(before, me, order, i), before[order[i]];
    assert contents0[order[i]] == q;
    if !result {
      LastOfTwo(stolen, q, held);
      assert taskBuffer + stolen + q == taskBuffer + (stolen + q);
    }
  }

  lemma PutOne(before: Queues, me: nat, own: Tasks, all: Tasks, n: nat)
    requires me < |before| && 0 < n <= |all|
    ensures before[me := own + Reverse(all[n..])][me := own + Reverse(all[n..]) + [all[n - 1]]]
            == before[me := own + Reverse(all[n - 1..])]
  {
    assert all[n - 1..][1..] == all[n..];
    assert own + Reverse(all[n..]) + [all[n - 1]] == own + (Reverse(all[n..]) + [all[n - 1]]);
  }

  // The queues of one priority, one per thread, and where each thread last stole from: the fields
  // HiPriTaskQueue and HiPriLastSuccessfulSteal, or LoPri, of every m_tls[i].
  class TaskQueues {
    const queues: seq<Queue>
    var lastSuccessfulSteal: seq<nat>
    // What every queue holds, oldest first.
    ghost var contents: Queues
    ghost var Repr: set<object>

    ghost predicate Valid()
      reads this, Repr
      ensures Valid() ==> this in Repr && |contents| == |queues| == |lastSuccessfulSteal|
    {
      && this in Repr && |contents| == |queues| == |lastSuccessfulSteal|
      && (forall i | 0 <= i < |queues| ::
           queues[i] in Repr && queues[i].m_array in Repr && queues[i].m_array.m_items in Repr)
      && (forall i | 0 <= i < |queues| :: queues[i].Valid() && queues[i].Contents() == contents[i])
      && (forall i, j | 0 <= i < j < |queues| :: Apart(queues[i], queues[j]))
    }

    constructor (n: nat)
      ensures Valid() && fresh(Repr) && contents == seq(n, _ => []) && lastSuccessfulSteal == seq(n, _ => 1)
    {
      var qs: seq<Queue> := [];
      ghost var made: set<object> := {};
      for i := 0 to n
        invariant |qs| == i && fresh(made)
        invariant forall k | 0 <= k < i :: qs[k].Repr() <= made && qs[k].Valid() && qs[k].Contents() == []
        invariant forall j, k | 0 <= j < k < i :: Apart(qs[j], qs[k])
      {
        var q := new WaitFreeQueue<TaskBundle>();
        qs := qs + [q];
        made := made + q.Repr();
      }
      queues := qs;
      lastSuccessfulSteal := seq(n, _ => 1);
      contents := seq(n, _ => []);
      Repr := {this} + made;
    }

    // An operation on queue i leaves the other queues as they were, and apart from it.
    twostate lemma OthersStay(i: nat)
      requires old(Valid()) && i < |queues| && contents == old(contents)
      requires forall o: object | o in old(Repr) && o !in old(queues[i].Repr()) :: unchanged(o)
      requires queues[i].m_array == old(queues[i].m_array)
        || (fresh(queues[i].m_array) && fresh(queues[i].m_array.m_items))
      ensures forall j | 0 <= j < |queues| && j != i ::
        queues[j].m_array == old(queues[j].m_array) && Apart(queues[j], queues[i]) && queues[j].Valid()
        && queues[j].Contents() == contents[j]
    {
      forall j | 0 <= j < |queues| && j != i
        ensures queues[j].m_array == old(queues[j].m_array) && Apart(queues[j], queues[i]) && queues[j].Valid()
        ensures queues[j].Contents() == contents[j]
      {
        assert old(Apart(queues[j], queues[i]));
      }
    }

    method Pop(i: nat, held: TaskBundle) returns (result: bool, value: TaskBundle)
      requires Valid() && i < |queues|
      modifies Repr
      ensures Valid() && Repr == old(Repr) && lastSuccessfulSteal == old(lastSuccessfulSteal)
      ensures result <==> old(contents)[i] != []
      ensures result ==> value == old(contents[i][|contents[i]| - 1])
                         && contents == old(contents[i := contents[i][..|contents[i]| - 1]])
      ensures !result ==> contents == old(contents) && value == held
    {
      result, value := queues[i].Pop(held);
      OthersStay(i);
      contents := contents[i := queues[i].Contents()];
    }

    method Steal(i: nat, held: TaskBundle) returns (result: bool, value: TaskBundle)
      requires Valid() && i < |queues|
      modifies Repr
      ensures Valid() && Repr == old(Repr) && lastSuccessfulSteal == old(lastSuccessfulSteal)
      ensures result <==> old(contents)[i] != []
      ensures result ==> value == old(contents[i][0]) && contents == old(contents[i := contents[i][1..]])
      ensures !result ==> contents == old(contents) && value == held
    {
      result, value := queues[i].Steal(held);
      OthersStay(i);
      contents := contents[i := queues[i].Contents()];
    }

    // A steal by thread me, which remembers where it succeeded.
    method StealAs(me: nat, v: nat, held: TaskBundle) returns (result: bool, value: TaskBundle)
      requires Valid() && me < |queues| && v < |queues|
      modifies Repr
      ensures Valid() && Repr == old(Repr)
      ensures result <==> old(contents)[v] != []
      ensures result ==> value == old(contents[v][0]) && contents == old(contents[v := contents[v][1..]])
                         && lastSuccessfulSteal == old(lastSuccessfulSteal)[me := v]
      ensures !result ==> contents == old(contents) && value == held && lastSuccessfulSteal == old(lastSuccessfulSteal)
    {
      result, value := Steal(v, held);
      if result { lastSuccessfulSteal := lastSuccessfulSteal[me := v]; }
    }

    method Push(i: nat, value: TaskBundle)
      requires Valid() && i < |queues|
      modifies Repr
      ensures Valid() && fresh(Repr - old(Repr)) && lastSuccessfulSteal == old(lastSuccessfulSteal)
      ensures contents == old(contents[i := contents[i] + [value]])
    {
      queues[i].Push(value);
      OthersStay(i);
      forall j, k | 0 <= j < k < |queues|
        ensures Apart(queues[j], queues[k])
      {
        if j != i && k != i { assert old(Apart(queues[j], queues[k])); }
      }
      contents := contents[i := queues[i].Contents()];
      Repr := Repr + queues[i].Repr();
    }

    // The first loop of GetNextHiPriTask: pop until something ready turns up. taskBuffer, a vector
    // passed by pointer, is an in and out parameter in all of these.
    method PopUntilReady(me: nat, switched: set<nat>, taskBuffer: Tasks, held: TaskBundle)
        returns (result: bool, nextTask: TaskBundle, buffer: Tasks)
      requires Valid() && me < |queues|
      modifies Repr
      ensures Valid() && Repr == old(Repr) && lastSuccessfulSteal == old(lastSuccessfulSteal)
      ensures PopEnded(old(contents), me, switched, taskBuffer, held, result, nextTask, buffer, contents)
    {
      ghost var before, k: nat := contents, |contents[me]|;
      result, nextTask, buffer := false, held, taskBuffer;
      assert before[me][..k] == before[me] && before[me][k..] == [] && before[me := before[me]] == before;
      while true
        invariant Valid() && Repr == old(Repr) && lastSuccessfulSteal == old(lastSuccessfulSteal) && !result
        invariant k <= |before[me]| && Popped(before, me, k, switched, taskBuffer, held, nextTask, buffer, contents)
        decreases k
      {
        ghost var next0, contents0 := nextTask, contents;
        if k > 0 { PopOne(before, me, k, switched, taskBuffer, held, nextTask, buffer, contents); }
        result, nextTask := Pop(me, nextTask);
        if !result {
          PopFindsNothing(before, me, switched, taskBuffer, held, nextTask, buffer, contents);
          return;
        }
        if IsReady(nextTask, switched) {
          PopFindsTask(before, me, k, switched, taskBuffer, held, next0, buffer, contents0);
          return;
        }
        result := false;
        buffer := buffer + [nextTask];
        k := k - 1;
      }
    }

    // The inner loop: steal from thread v until something ready turns up.
    method StealUntilReady(me: nat, v: nat, switched: set<nat>, taskBuffer: Tasks, held: TaskBundle)
        returns (result: bool, nextTask: TaskBundle, buffer: Tasks)
      requires Valid() && me < |queues| && v < |queues|
      modifies Repr
      ensures Valid() && Repr == old(Repr)
      ensures StealEnded(old(contents), v, switched, taskBuffer, held, result, nextTask, buffer, contents)
      ensures lastSuccessfulSteal ==
        if old(contents[v]) != [] then old(lastSuccessfulSteal)[me := v] else old(lastSuccessfulSteal)
    {
      ghost var before, steals, k: nat := contents, lastSuccessfulSteal, 0;
      result, nextTask, buffer := false, held, taskBuffer;
      assert before[v][k..] == before[v] && before[v][..k] == [] && before[v := before[v]] == before;
      while true
        invariant Valid() && Repr == old(Repr) && !result
        invariant k <= |before[v]| && StoleSome(before, v, k, switched, taskBuffer, held, nextTask, buffer, contents)
        invariant lastSuccessfulSteal == if k > 0 then steals[me := v] else steals
        decreases |before[v]| - k
      {
        StealEnds(before, v, k, switched, taskBuffer, held, nextTask, buffer, contents);
        if k < |before[v]| { StealOne(before, v, k, switched, taskBuffer, held, nextTask, buffer, contents); }
        result, nextTask := StealAs(me, v, nextTask);
        if !result { break; }
        if IsReady(nextTask, switched) { break; }
        result := false;
        buffer := buffer + [nextTask];
        k := k + 1;
      }
    }

    // The cleanup: put the buffer back, last one first.
    method PutBack(me: nat, taskBuffer: Tasks) returns (buffer: Tasks)
      requires Valid() && me < |queues|
      modifies Repr
      ensures Valid() && fresh(Repr - old(Repr)) && lastSuccessfulSteal == old(lastSuccessfulSteal)
      ensures buffer == []
      ensures contents == old(contents[me := contents[me] + Reverse(taskBuffer)])
    {
      ghost var own := contents[me];
      buffer := taskBuffer;
      assert taskBuffer[|taskBuffer|..] == [] && own + [] == own && contents == contents[me := own];
      while buffer != []
        invariant Valid() && fresh(Repr - old(Repr)) && lastSuccessfulSteal == old(lastSuccessfulSteal)
        invariant buffer <= taskBuffer
        invariant contents == old(contents)[me := own + Reverse(taskBuffer[|buffer|..])]
        decreases |buffer|
      {
        PutOne(old(contents), me, own, taskBuffer, |buffer|);
        Push(me, buffer[|buffer| - 1]);
        buffer := buffer[..|buffer| - 1];
      }
      assert taskBuffer[0..] == taskBuffer;
    }

    // The loop over the other threads, once the thread's own queue is empty. j is the probe it ended at.
    method StealFromOthers(me: nat, switched: set<nat>, taskBuffer: Tasks, held: TaskBundle, ghost before: Queues)
        returns (result: bool, nextTask: TaskBundle, buffer: Tasks, ghost j: nat)
      requires Valid() && me < |queues| == |before| && contents == before[me := []]
      modifies Repr
      ensures Valid() && Repr == old(Repr)
      ensures StealingEnded(before, me, old(lastSuccessfulSteal[me]), switched, taskBuffer, held, j,
                            result, nextTask, buffer, contents, lastSuccessfulSteal[me])
      ensures lastSuccessfulSteal == old(lastSuccessfulSteal)[me := lastSuccessfulSteal[me]]
    {
      var threadIndex := lastSuccessfulSteal[me];
      ghost var order, steals := ProbeOrder(threadIndex, |queues|), lastSuccessfulSteal;
      result, nextTask, buffer, j := false, held, taskBuffer, 0;
      assert steals[me := threadIndex] == steals;
      for i := 0 to |queues|
        invariant Valid() && Repr == old(Repr) && !result && j == i
        invariant Missed(before, me, order, i, taskBuffer, held, nextTask, buffer, contents)
        invariant lastSuccessfulSteal == steals[me := LastVictim(before, me, order, i, threadIndex)]
        invariant AllMiss(before, me, order, switched, i)
      {
        var threadIndexToStealFrom := (threadIndex + i) % |queues|;
        assert threadIndexToStealFrom == order[i];
        ProbeRemembers(before, me, order, i, threadIndex, steals);
        if threadIndexToStealFrom == me {
          ProbeSelf(before, me, order, i, taskBuffer, held, nextTask, buffer, contents);
        } else {
          ghost var next0, buffer0, contents0 := nextTask, buffer, contents;
          NotYetEmptied(before, me, order, i, i);
          result, nextTask, buffer := StealUntilReady(me, threadIndexToStealFrom, switched, buffer, nextTask);
          ProbeOther(before, me, order, i, switched, taskBuffer, held, next0, buffer0, contents0, result, nextTask,
                     buffer, contents);
          if result { return; }
        }
        OneMoreMiss(before, me, order, switched, i);
        j := j + 1;
      }
    }

    // All of GetNextHiPriTask but the cleanup. j is the probe at which stealing ended, if it came to that.
    method FindHiPriTask(me: nat, switched: set<nat>, taskBuffer: Tasks, held: TaskBundle)
        returns (result: bool, nextTask: TaskBundle, buffer: Tasks, ghost j: nat)
      requires Valid() && me < |queues|
      modifies Repr
      ensures Valid() && Repr == old(Repr)
      ensures var before, start := old(contents), old(lastSuccessfulSteal[me]);
        if LastReady(before[me], switched) > 0
        then PopEnded(before, me, switched, taskBuffer, held, result, nextTask, buffer, contents)
             && lastSuccessfulSteal == old(lastSuccessfulSteal)
        else StealingEnded(before, me, start, switched, taskBuffer + Reverse(before[me]),
                           Last(Reverse(before[me]), held), j,
                           result, nextTask, buffer, contents, lastSuccessfulSteal[me])
             && lastSuccessfulSteal == old(lastSuccessfulSteal)[me := lastSuccessfulSteal[me]]
    {
      ghost var before := contents;
      j := 0;
      result, nextTask, buffer := PopUntilReady(me, switched, taskBuffer, held);
      if result { return; }
      assert before[me][0..] == before[me];
      result, nextTask, buffer, j := StealFromOthers(me, switched, buffer, nextTask, before);
    }

    method GetNextHiPriTask(me: nat, switched: set<nat>, taskBuffer: Tasks, held: TaskBundle)
        returns (result: bool, nextTask: TaskBundle, buffer: Tasks)
      requires Valid() && me < |queues|
      modifies Repr
      ensures Valid() && fresh(Repr - old(Repr)) && buffer == []
      ensures Outcome(result, nextTask, contents, lastSuccessfulSteal[me]) ==
        Search(old(contents), me, old(lastSuccessfulSteal[me]), switched, taskBuffer, held)
      ensures lastSuccessfulSteal == old(lastSuccessfulSteal)[me := lastSuccessfulSteal[me]]
    {
      ghost var before, start, j := contents, lastSuccessfulSteal[me], 0;
      result, nextTask, buffer, j := FindHiPriTask(me, switched, taskBuffer, held);
      if LastReady(before[me], switched) > 0 {
        SearchPopped(before, me, start, switched, taskBuffer, held, result, nextTask, buffer, contents);
      } else {
        SearchStolen(before, me, start, switched, taskBuffer, held, j, result, nextTask, buffer, contents,
                     lastSuccessfulSteal[me]);
      }
      buffer := PutBack(me, buffer);
    }

    // For queues of low priority: whatever comes first is ready.
    method GetNextLoPriTask(me: nat, held: TaskBundle) returns (result: bool, nextTask: TaskBundle)
      requires Valid() && me < |queues|
      modifies Repr
      ensures Valid() && Repr == old(Repr)
      ensures Outcome(result, nextTask, contents, lastSuccessfulSteal[me]) ==
        SearchLow(old(contents), me, old(lastSuccessfulSteal[me]), held)
      ensures lastSuccessfulSteal == old(lastSuccessfulSteal)[me := lastSuccessfulSteal[me]]
    {
      var threadIndex := lastSuccessfulSteal[me];
      ghost var before, order := contents, ProbeOrder(threadIndex, |queues|);
      result, nextTask := Pop(me, held);
      if result { return; }
      for i := 0 to |queues|
        invariant Valid() && Repr == old(Repr) && contents == before && nextTask == held && !result
        invariant lastSuccessfulSteal == old(lastSuccessfulSteal)
        invariant forall k | 0 <= k < i :: order[k] == me || before[order[k]] == []
      {
        var threadIndexToStealFrom := (threadIndex + i) % |queues|;
        assert threadIndexToStealFrom == order[i];
        if threadIndexToStealFrom != me {
          result, nextTask := StealAs(me, threadIndexToStealFrom, nextTask);
          if result {
            FirstNonEmptyIs(before, me, order, i);
            return;
          }
        }
      }
      FirstNonEmptyIs(before, me, order, |queues|);
    }
  }
}

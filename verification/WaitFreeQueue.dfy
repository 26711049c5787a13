/** The deque as the source writes it: a ring array that is replaced by one twice its size when it
    is full, and a queue over it. Called by one thread at a time, its methods are the operations of
    a plain sequence. DequeMachine has the same steps under every interleaving. */
module WaitFreeQueues {
  import opened Bits

  ghost predicate IsRing<T>(items: seq<T>) {
    |items| >= 1 && IsPow2(|items|)
  }

  function RingGet<T>(items: seq<T>, i: nat): T
    requires IsRing(items)
  {
    SlotBound(i, |items|);
    items[Slot(i, |items|)]
  }

  // The items at logical indices t, t + 1, ..., b - 1.
  ghost function Window<T>(items: seq<T>, t: nat, b: nat): (w: seq<T>)
    requires IsRing(items) && t <= b
    ensures |w| == b - t
    ensures forall k | 0 <= k < b - t :: w[k] == RingGet(items, t + k)
  {
    seq(b - t, k requires 0 <= k < b - t => RingGet(items, t + k))
  }

  class CircularArray<T(0)> {
    const m_items: array<T>
    var m_previous: CircularArray?<T>

    ghost predicate Valid()
      reads this, m_items
    {
      IsRing(m_items[..])
    }

    constructor (n: nat)
      requires BitAnd(n, Dec64(n)) == 0
      ensures m_items.Length == n && fresh(m_items) && m_previous == null && (n >= 1 ==> Valid())
    {
      m_items := new T[n];
      m_previous := null;
      PowerOfTwoTest(n);
    }

    function Size(): nat
    {
      m_items.Length
    }

    function Get(index: nat): (x: T)
      requires Valid()
      reads this, m_items
      ensures x == RingGet(m_items[..], index)
    {
      SlotBound(index, m_items.Length);
      m_items[BitAnd(index, Size() - 1)]
    }

    method Put(index: nat, x: T)
      requires Valid()
      modifies m_items
      ensures Valid() && RingGet(m_items[..], index) == x
      ensures forall j: nat | index < j + Size() && j < index + Size() && j != index ::
        RingGet(m_items[..], j) == old(RingGet(m_items[..], j))
    {
      SlotBound(index, m_items.Length);
      m_items[BitAnd(index, Size() - 1)] := x;
      forall j: nat | index < j + Size() && j < index + Size() && j != index
        ensures RingGet(m_items[..], j) == old(RingGet(m_items[..], j))
      {
        SlotBound(j, m_items.Length);
        if index < j { SlotsDistinct(index, j, Size()); } else { SlotsDistinct(j, index, Size()); }
      }
    }

    // Copies the live window into an array of twice the size that remembers this one.
    method Grow(top: nat, bottom: nat) returns (newArray: CircularArray<T>)
      requires Valid() && top <= bottom <= top + Size()
      ensures fresh(newArray) && fresh(newArray.m_items)
      ensures newArray.Valid() && newArray.Size() == 2 * Size() && newArray.m_previous == this
      ensures Window(newArray.m_items[..], top, bottom) == Window(m_items[..], top, bottom)
    {
      Pow2Doubles(Size());
      PowerOfTwoTest(2 * Size());
      newArray := new CircularArray(Size() * 2);
      newArray.m_previous := this;
      var i := top;
      while i != bottom
        invariant top <= i <= bottom && newArray.Valid() && newArray.m_previous == this
        invariant forall j: nat | top <= j < i :: RingGet(newArray.m_items[..], j) == RingGet(m_items[..], j)
        decreases bottom - i
      {
        newArray.Put(i, Get(i));
        i := i + 1;
      }
    }
  }

  class WaitFreeQueue<T(0)> {
    var m_top: nat
    var m_bottom: nat
    var m_array: CircularArray<T>

    ghost function Repr(): set<object>
      reads this, m_array
    {
      {this, m_array, m_array.m_items}
    }

    ghost predicate Valid()
      reads this, m_array, m_array.m_items
    {
      && 1 <= m_top <= m_bottom <= m_top + m_array.Size()
      && m_array.Valid()
    }

    // Oldest first: Steal takes from the front, Push and Pop work at the back.
    ghost function Contents(): seq<T>
      requires Valid()
      reads this, m_array, m_array.m_items
    {
      Window(m_array.m_items[..], m_top, m_bottom)
    }

    constructor ()
      ensures Valid() && fresh(Repr()) && Contents() == [] && m_array.Size() == 32
    {
      m_top := 1;
      m_bottom := 1;
      assert BitAnd(32, Dec64(32)) == 0 by {
        assert 32 == Pow2(5) by { assert Pow2(2) == 4; assert Pow2(4) == 16; }
        PowerOfTwoTest(32);
      }
      m_array := new CircularArray(32);
    }

    method Push(value: T)
      requires Valid()
      modifies Repr()
      ensures Valid() && fresh(Repr() - old(Repr()))
      ensures m_array == old(m_array) || (fresh(m_array) && fresh(m_array.m_items))
      ensures if |old(Contents())| < old(m_array).Size() then m_array == old(m_array)
              else m_array.m_previous == old(m_array) && m_array.Size() == 2 * old(m_array).Size()
      ensures Contents() == old(Contents()) + [value]
    {
      ghost var before := Contents();
      var b := m_bottom;
      var t := m_top;
      var a := m_array;
      if b - t > a.Size() - 1 {
        a := a.Grow(t, b);
        m_array := a;
      }
      assert Window(a.m_items[..], t, b) == before;
      a.Put(b, value);
      m_bottom := b + 1;
      assert forall k | 0 <= k < b - t :: Contents()[k] == before[k];
    }

    // `held` is what the caller's location contained; a failed call leaves it there.
    method Pop(held: T) returns (result: bool, value: T)
      requires Valid()
      modifies this
      ensures Valid() && Repr() == old(Repr())
      ensures result <==> old(Contents()) != []
      ensures result ==> old(Contents()) == Contents() + [value]
      ensures !result ==> Contents() == [] && value == held
    {
      value := held;
      ghost var before := Contents();
      var b := m_bottom - 1;
      var a := m_array;
      m_bottom := b;
      var t := m_top;
      result := true;
      if t <= b {
        value := a.Get(b);
        if t == b {
          if m_top == t {
            m_top := t + 1;
          } else {
            result := false;
          }
          m_bottom := b + 1;
        }
      } else {
        result := false;
        m_bottom := b + 1;
      }
    }

    method Steal(held: T) returns (result: bool, value: T)
      requires Valid()
      modifies this
      ensures Valid() && Repr() == old(Repr())
      ensures result <==> old(Contents()) != []
      ensures result ==> old(Contents()) == [value] + Contents()
      ensures !result ==> Contents() == [] && value == held
    {
      value := held;
      ghost var before := Contents();
      var t := m_top;
      var b := m_bottom;
      if t < b {
        var a := m_array;
        value := a.Get(t);
        if m_top == t {
          m_top := t + 1;
          result := true;
        } else {
          result := false;
        }
        assert forall k | 0 <= k < b - t - 1 :: Contents()[k] == before[k + 1];
      } else {
        result := false;
      }
    }
  }
}

/**
 * The generic ring-buffer queue of the robot's firmware, usable as FIFO
 * (push/pop) or LIFO (push/pop_back). `qFront` indexes the oldest item,
 * `qBack` the slot after the newest one, and both wrap around at `maxSize`.
 * The ghost field `Contents` is the sequence of items, oldest first.
 */
module RingQueue {
  import opened Arith

  class Queue<T> {
    var qFront: int
    var qBack: int
    var qSize: int
    /** The capacity; only the compiled-out dynamic-growth branch would change it. */
    const maxSize: nat
    /** The buffer, allocated here or supplied by the caller. */
    const qData: array<T>
    /** What C++ `T()` yields: the value returned by the read operations on an empty queue. */
    const defaultItem: T

    ghost var Contents: seq<T>

    /** Slot index `k` brought back into `[0, maxSize)` by one subtraction, as the source does. */
    function Wrap(k: int): int {
      if k >= maxSize then k - maxSize else k
    }

    ghost predicate Valid()
      reads this, qData
    {
      maxSize <= qData.Length &&
      0 <= qSize <= maxSize &&
      (maxSize == 0 ==> qFront == 0 && qBack == 0) &&
      (maxSize > 0 ==> 0 <= qFront < maxSize && 0 <= qBack < maxSize) &&
      qBack == Wrap(qFront + qSize) &&
      |Contents| == qSize &&
      forall i :: 0 <= i < qSize ==> Contents[i] == qData[Wrap(qFront + i)]
    }

    /** `Queue(int max = 50, T *buffer = NULL)`; a null buffer means the queue allocates its own. */
    constructor (max: nat, buffer: array?<T>, blank: T)
      requires buffer != null ==> max <= buffer.Length
      ensures Valid() && Contents == []
      ensures maxSize == max && defaultItem == blank
      ensures buffer != null ==> qData == buffer
      ensures buffer == null ==> fresh(qData)
    {
      qFront := 0;
      qBack := 0;
      qSize := 0;
      maxSize := max;
      defaultItem := blank;
      if buffer == null {
        qData := new T[max](_ => blank);
      } else {
        qData := buffer;
      }
      Contents := [];
    }

    /** The modular form of the back index: it is `qFront + qSize` reduced modulo `maxSize`. */
    lemma BackIsModular()
      requires Valid() && maxSize > 0
      ensures 0 <= qFront < maxSize && 0 <= qBack < maxSize && 0 <= qSize <= maxSize
      ensures qBack == (qFront + qSize) % maxSize
    {
      var k := qFront + qSize;
      if k >= maxSize {
        DivModOfBracket(k, maxSize, 1);
      } else {
        DivModOfBracket(k, maxSize, 0);
      }
    }

    /** Adds `item` at the back when there is room; a full queue is left as it is. */
    method Push(item: T)
      requires Valid()
      modifies this, qData
      ensures Valid()
      ensures old(|Contents|) < maxSize ==> Contents == old(Contents) + [item]
      ensures old(|Contents|) == maxSize ==> unchanged(this, qData)
    {
      if qSize < maxSize {
        qData[qBack] := item;
        qBack := qBack + 1;
        qSize := qSize + 1;
        if qBack >= maxSize {
          qBack := qBack - maxSize;
        }
        Contents := Contents + [item];
      }
    }

    /** Removes and returns the oldest item; an empty queue gives `T()` and stays as it is. */
    method Pop() returns (r: T)
      requires Valid()
      modifies this
      ensures Valid()
      ensures old(Contents) == [] ==> r == defaultItem && unchanged(this)
      ensures old(Contents) != [] ==> r == old(Contents)[0] && Contents == old(Contents)[1..]
    {
      if qSize <= 0 {
        return defaultItem;
      }
      r := qData[qFront];
      qFront := qFront + 1;
      qSize := qSize - 1;
      if qFront >= maxSize {
        qFront := qFront - maxSize;
      }
      Contents := Contents[1..];
    }

    /** Removes and returns the newest item (LIFO use); an empty queue gives `T()` and stays as it is. */
    method PopBack() returns (r: T)
      requires Valid()
      modifies this
      ensures Valid()
      ensures old(Contents) == [] ==> r == defaultItem && unchanged(this)
      ensures old(Contents) != [] ==> r == old(Contents)[|old(Contents)| - 1] &&
                                      Contents == old(Contents)[..|old(Contents)| - 1]
    {
      if qSize <= 0 {
        return defaultItem;
      }
      var item := qBack - 1;
      if item < 0 {
        item := item + maxSize;
      }
      assert item == Wrap(qFront + qSize - 1);
      r := qData[item];
      qBack := qBack - 1;
      qSize := qSize - 1;
      if qBack < 0 {
        qBack := qBack + maxSize;
      }
      Contents := Contents[..qSize];
    }

    /** The oldest item, left in place; `T()` on an empty queue. */
    method Front() returns (r: T)
      requires Valid()
      ensures r == if Contents == [] then defaultItem else Contents[0]
    {
      if qSize <= 0 {
        return defaultItem;
      }
      return qData[qFront];
    }

    /** Another name for Front. */
    method Peek() returns (r: T)
      requires Valid()
      ensures r == if Contents == [] then defaultItem else Contents[0]
    {
      r := Front();
    }

    /** The newest item, left in place; `T()` on an empty queue. */
    method Back() returns (r: T)
      requires Valid()
      ensures r == if Contents == [] then defaultItem else Contents[|Contents| - 1]
    {
      if qSize <= 0 {
        return defaultItem;
      }
      var item := qBack - 1;
      if item < 0 {
        item := item + maxSize;
      }
      assert item == Wrap(qFront + qSize - 1);
      return qData[item];
    }

    method Empty() returns (r: bool)
      requires Valid()
      ensures r <==> Contents == []
    {
      if qSize <= 0 {
        return true;
      }
      return false;
    }

    method Size() returns (r: int)
      requires Valid()
      ensures r == |Contents|
    {
      return qSize;
    }

    /** Forgets every item by moving the front onto the back; the stored data is not touched. */
    method Clear()
      requires Valid()
      modifies this
      ensures Valid()
      ensures Contents == []
    {
      qFront := qBack;
      qSize := 0;
      Contents := [];
    }
  }
}

/** The mutex-guarded queue of LockedQueue.h; each method is one locked section. */
module LockedQueue {

  class Queue<T> {
    var items: seq<T>

    constructor ()
      ensures items == []
    {
      items := [];
    }

    method Push(value: T)
      modifies this
      ensures items == old(items) + [value]
    {
      items := items + [value];
    }

    /** There is no test for emptiness: the caller must know that the queue holds something. */
    method Pop() returns (value: T)
      requires items != []
      modifies this
      ensures old(items) == [value] + items
    {
      value := items[0];
      items := items[1..];
    }

    method Clear()
      modifies this
      ensures items == []
    {
      while items != []
        decreases |items|
      {
        items := items[1..];
      }
    }

    method Empty() returns (isEmpty: bool)
      ensures isEmpty == (items == [])
    {
      isEmpty := |items| == 0;
    }

    method Size() returns (size: nat)
      ensures size == |items|
    {
      size := |items|;
    }
  }
}

/** The bounded queue: a linked list with head and tail, refined to a bounded sequence. */
module Fifos {

  datatype Option<+T> = None | Some(value: T)

  class Node<T> {
    const data: T
    var next: Node?<T>

    constructor (data: T)
      ensures this.data == data && next == null
    {
      this.data := data;
      next := null;
    }
  }

  class Fifo<T> {
    const maxSize: nat
    var size: nat
    var head: Node?<T>
    var tail: Node?<T>

    ghost var spine: seq<Node<T>>
    ghost var Repr: set<object>

    ghost predicate Valid()
      reads this, Repr
      ensures Valid() ==> this in Repr
    {
      && this in Repr
      && (forall k :: 0 <= k < |spine| ==> spine[k] in Repr)
      && size == |spine| <= maxSize
      && (forall k, l :: 0 <= k < l < |spine| ==> spine[k] != spine[l])
      && (forall k {:trigger spine[k].next} :: 0 <= k < |spine| - 1 ==> spine[k].next == spine[k + 1])
      && (if size == 0 then head == null && tail == null
          else head == spine[0] && tail == spine[size - 1] && tail.next == null)
    }

    ghost function Contents(): (s: seq<T>)
      reads this
      ensures |s| == |spine|
    {
      var nodes := spine;
      seq(|nodes|, k requires 0 <= k < |nodes| => nodes[k].data)
    }

    constructor (maxSize: nat)
      ensures Valid() && fresh(Repr) && Contents() == [] && this.maxSize == maxSize
    {
      this.maxSize := maxSize;
      size := 0;
      head := null;
      tail := null;
      spine := [];
      Repr := {this};
    }

    method Pop() returns (r: Option<T>)
      requires Valid()
      modifies this
      ensures Valid() && Repr == old(Repr)
      ensures if old(Contents()) == [] then r == None && Contents() == []
              else r == Some(old(Contents())[0]) && Contents() == old(Contents())[1..]
    {
      r := None;
      if size > 0 && head != null && tail != null {
        var element := head;
        assert element == spine[0];
        r := Some(element.data);
        head := head.next;
        if size == 1 {
          tail := null;
        }
        size := size - 1;
        spine := spine[1..];
      }
    }

    /** Refuses a missing element, and any element when the queue is full. */
    method Push(element: Option<T>) returns (ok: bool)
      requires Valid()
      modifies Repr
      ensures Valid() && fresh(Repr - old(Repr))
      ensures ok <==> element.Some? && |old(Contents())| < maxSize
      ensures Contents() == if ok then old(Contents()) + [element.value] else old(Contents())
    {
      if element == None || size == maxSize {
        return false;
      }
      var entry := new Node(element.value);
      if size == 0 {
        head := entry;
        tail := entry;
      } else {
        tail.next := entry;
        tail := entry;
      }
      size := size + 1;
      spine := spine + [entry];
      Repr := Repr + {entry};
      return true;
    }

    method IsFull() returns (full: bool)
      requires Valid()
      ensures full <==> |Contents()| == maxSize
    {
      full := size == maxSize;
    }
  }
}

/**
 The mailbox as its clients see it: the abstract value of the exchange-then-link queue.

 A push takes two accesses. The exchange of the head fixes the order; the store of the
 link makes the entry reachable. Between the two the entry is in the queue but a pop
 cannot get past it.
 */
module Mailbox {

  import opened Optional

  /**
   `order` lists all values in the order of their exchanges and `popped` of them are gone.
   `linker[i]` is the producer that still has to store the link to entry `i`.
   */
  datatype Box<T> = Box(order: seq<T>, linker: seq<Option<nat>>, popped: nat)

  predicate Shape<T>(b: Box<T>) {
    && |b.linker| == |b.order|
    && b.popped <= |b.order|
    && (forall i :: 0 <= i < b.popped ==> b.linker[i] == None)
  }

  function Empty<T>(): Box<T> {
    Box([], [], 0)
  }

  /** What is waiting, first entry first. */
  function Waiting<T>(b: Box<T>): seq<T>
    requires Shape(b)
  {
    b.order[b.popped..]
  }

  /** The exchange by producer `t`. */
  function Exchange<T>(b: Box<T>, v: T, t: nat): Box<T> {
    b.(order := b.order + [v], linker := b.linker + [Some(t)])
  }

  /** The store of the link to entry `i`. */
  function LinkUp<T>(b: Box<T>, i: nat): Box<T>
    requires i < |b.linker|
  {
    b.(linker := b.linker[i := None])
  }

  predicate CanPop<T>(b: Box<T>) {
    b.popped < |b.order| && b.popped < |b.linker| && b.linker[b.popped] == None
  }

  function Pop<T>(b: Box<T>): Box<T> {
    b.(popped := b.popped + 1)
  }
}

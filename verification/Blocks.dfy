/** Blocks of slots: the vocabulary the models of the implicit producer share. */
module Blocks {

  const BLOCK_SIZE: nat := 32

  type Value = nat

  datatype Ptr = Null | At(block: nat)

  /** A slot is raw memory, or holds an element. */
  datatype Cell = Raw | Built(v: Value)

  /** The number of blocks that hold the slots below `n`. */
  function BlocksFor(n: nat): nat {
    (n + BLOCK_SIZE - 1) / BLOCK_SIZE
  }

  function Min(a: nat, b: nat): nat {
    if a < b then a else b
  }
}

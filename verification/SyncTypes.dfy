/** The values every part of the synchronisation module exchanges. */
module SyncTypes {

  datatype Option<+T> = None | Some(value: T)

  /** A hash is only ever compared; `NO_HASH` is the default-constructed one. */
  type Hash = int
  const NO_HASH: Hash := 0

  datatype NodeId = NodeId(key: int)

  /** What synchronisation looks at in a block: the header's number and hash, and the transaction count. */
  datatype Block = Block(number: int, hash: Hash, txs: nat)

  /** One block message of a peer; an entry that does not decode is `None`. */
  type Shard = seq<Option<Block>>

  function Min(a: int, b: int): int {
    if a <= b then a else b
  }

  function Max(a: int, b: int): int {
    if a >= b then a else b
  }
}

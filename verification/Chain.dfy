/** Chain vocabulary shared by the read models. */
module Chain {

  /** (txHash, logIndex): where a log sits, and the replay-dedup key of everything derived from it. */
  datatype Key = Key(txHash: nat, logIndex: nat)

  /** A lower-cased contract address. */
  type Address = nat
}

/** Values shared by every module of the model. */
module Values {

  datatype Option<+T> = None | Some(value: T)

  newtype byte = x: int | 0 <= x < 256

  type Bytes = seq<byte>

  /** A KORD ID: the 20 bytes of an Ethereum address. */
  type Address = b: Bytes | |b| == 20 witness seq(20, _ => 0 as byte)

  /** A digest, idealised as an unbounded number so that a collision-free
      digest function can exist. EMPTY_HASH stands for the all-zero hash. */
  type Hash = nat

  const EMPTY_HASH: Hash := 0

  /** Reads a hash-valued mapping the way Go and Solidity do: an absent key
      yields the zero hash. */
  function HashAt(hashes: map<Address, Hash>, a: Address): Hash {
    if a in hashes then hashes[a] else EMPTY_HASH
  }
}

/** What the refund pipeline's phases hand to one another. */
module Refunds {
  /** An EVM address, as the number that its lower-case hexadecimal form writes. */
  type Address = nat

  const ZERO_ADDRESS: Address := 0

  /** A Knowledge Collection that locks tokens past the current epoch. Amounts are whole wei. */
  datatype FutureKc = FutureKc(id: int, startEpoch: int, endEpoch: int, tokenAmount: nat, publisher: Address)
}

/** Values of the chain the marketplace runs on. */
module Eth {
  /** An account or contract address; 0 stands for the zero address. */
  type Address = nat

  const ZeroAddress: Address := 0

  /** An amount of ether in its smallest unit (wei). */
  type Wei = nat
}

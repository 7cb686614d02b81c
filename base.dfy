/** Values shared by the three contracts: bytes, account and contract addresses,
    and the Option and Result wrappers the entry points return. */
module Base {

  /** One byte of a parameter, a return value or a log record. */
  newtype byte = x: int | 0 <= x < 256

  type Bytes = seq<byte>

  const U64_LIMIT: int := 0x1_0000_0000_0000_0000

  /** A 64-bit unsigned integer: contract indices and amounts. */
  type u64 = x: int | 0 <= x < U64_LIMIT

  /** An account address is 32 raw bytes. */
  type AccountBytes = s: Bytes | |s| == 32 witness seq(32, _ => 0)

  datatype AccountAddress = AccountAddress(bytes: AccountBytes)

  /** A contract instance is identified by its index and subindex. */
  datatype ContractAddress = ContractAddress(index: u64, subindex: u64)

  /** The sender of a call: an end-user account or a contract instance. */
  datatype Address = Account(account: AccountAddress) | Contract(contract: ContractAddress)

  /** `sender.matches_contract(c)`: the sender is the contract instance `c`. */
  predicate MatchesContract(sender: Address, c: ContractAddress) {
    sender.Contract? && sender.contract == c
  }

  datatype Option<+T> = None | Some(value: T)

  datatype Result<+T, +E> = Ok(value: T) | Err(error: E)

  /** The `()` of a handler that returns nothing. */
  datatype Unit = Unit
}

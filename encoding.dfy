/** The binary layout the contracts exchange parameters and return values in
    (concordium_std's `Serial`/`Deserial`): integers little-endian, `bool` as one
    byte 0 or 1, an enum as a leading one-byte ordinal, an `Address` as a tag byte
    (0 account, 1 contract) followed by the account's 32 bytes or the contract's
    index and subindex. Decoders read a prefix and hand back the rest, as
    `parameter_cursor().get()` does: trailing bytes are not an error. */
module Encoding {
  import opened Base

  /** 256 to the power k. */
  function Pow256(k: nat): (p: nat)
    ensures p >= 1
  {
    if k == 0 then 1 else 256 * Pow256(k - 1)
  }

  /** The k low-order bytes of n, least significant first. */
  function LeBytes(n: nat, k: nat): (b: Bytes)
    ensures |b| == k
  {
    if k == 0 then [] else [(n % 256) as byte] + LeBytes(n / 256, k - 1)
  }

  /** The number whose little-endian bytes are b. */
  function LeValue(b: Bytes): nat {
    if b == [] then 0 else b[0] as int + 256 * LeValue(b[1..])
  }

  lemma {:induction false} LeValueBound(b: Bytes)
    ensures LeValue(b) < Pow256(|b|)
  {
    if b != [] {
      LeValueBound(b[1..]);
    }
  }

  lemma {:induction false} LeRoundTrip(n: nat, k: nat)
    requires n < Pow256(k)
    ensures LeValue(LeBytes(n, k)) == n
  {
    if k > 0 {
      LeRoundTrip(n / 256, k - 1);
      assert LeBytes(n, k)[1..] == LeBytes(n / 256, k - 1);
    }
  }

  lemma U64Limit()
    ensures Pow256(8) == U64_LIMIT
  {
  }

  function EncodeU64(n: u64): (b: Bytes)
    ensures |b| == 8
  {
    LeBytes(n, 8)
  }

  function DecodeU64(b: Bytes): (r: Option<(u64, Bytes)>)
    ensures r.Some? <==> |b| >= 8
    ensures r.Some? ==> r.value.1 == b[8..]
  {
    if |b| < 8 then None
    else
      LeValueBound(b[..8]);
      U64Limit();
      Some((LeValue(b[..8]), b[8..]))
  }

  lemma {:induction false} U64RoundTrip(n: u64, rest: Bytes)
    ensures DecodeU64(EncodeU64(n) + rest) == Some((n, rest))
  {
    var b := EncodeU64(n) + rest;
    assert b[..8] == EncodeU64(n);
    assert b[8..] == rest;
    U64Limit();
    LeRoundTrip(n, 8);
  }

  function EncodeBool(x: bool): (b: Bytes)
    ensures |b| == 1 && (b[0] == 1 <==> x) && (b[0] == 0 <==> !x)
  {
    if x then [1] else [0]
  }

  /** A `bool` is one byte, 0 or 1; any other byte is a parse error. */
  function DecodeBool(b: Bytes): (r: Option<(bool, Bytes)>)
    ensures r.Some? <==> |b| >= 1 && b[0] <= 1
    ensures r.Some? ==> r.value == (b[0] == 1, b[1..])
  {
    if |b| == 0 || b[0] > 1 then None else Some((b[0] == 1, b[1..]))
  }

  lemma BoolRoundTrip(x: bool, rest: Bytes)
    ensures DecodeBool(EncodeBool(x) + rest) == Some((x, rest))
  {
    assert (EncodeBool(x) + rest)[1..] == rest;
  }

  function EncodeContractAddress(c: ContractAddress): (b: Bytes)
    ensures |b| == 16
  {
    EncodeU64(c.index) + EncodeU64(c.subindex)
  }

  function DecodeContractAddress(b: Bytes): (r: Option<(ContractAddress, Bytes)>)
    ensures r.Some? <==> |b| >= 16
    ensures r.Some? ==> r.value.1 == b[16..]
  {
    match DecodeU64(b)
    case None => None
    case Some((index, rest)) =>
      match DecodeU64(rest)
      case None => None
      case Some((subindex, rest')) => Some((ContractAddress(index, subindex), rest'))
  }

  lemma {:induction false} ContractAddressRoundTrip(c: ContractAddress, rest: Bytes)
    ensures DecodeContractAddress(EncodeContractAddress(c) + rest) == Some((c, rest))
  {
    var b := EncodeContractAddress(c) + rest;
    assert b == EncodeU64(c.index) + (EncodeU64(c.subindex) + rest);
    U64RoundTrip(c.index, EncodeU64(c.subindex) + rest);
    U64RoundTrip(c.subindex, rest);
  }

  /** Two contract addresses in a row: the layout of both `initialize` parameters
      and of the Proxy's init parameter. */
  function EncodeContractAddressPair(first: ContractAddress, second: ContractAddress): (b: Bytes)
    ensures |b| == 32
  {
    EncodeContractAddress(first) + EncodeContractAddress(second)
  }

  function DecodeContractAddressPair(b: Bytes): (r: Option<(ContractAddress, ContractAddress)>)
    ensures r.Some? <==> |b| >= 32
  {
    match DecodeContractAddress(b)
    case None => None
    case Some((first, rest)) =>
      match DecodeContractAddress(rest)
      case None => None
      case Some((second, _)) => Some((first, second))
  }

  lemma {:induction false} ContractAddressPairRoundTrip(first: ContractAddress, second: ContractAddress, rest: Bytes)
    ensures DecodeContractAddressPair(EncodeContractAddressPair(first, second) + rest) == Some((first, second))
  {
    var b := EncodeContractAddressPair(first, second) + rest;
    assert b == EncodeContractAddress(first) + (EncodeContractAddress(second) + rest);
    ContractAddressRoundTrip(first, EncodeContractAddress(second) + rest);
    ContractAddressRoundTrip(second, rest);
  }

  function EncodeAddress(a: Address): (b: Bytes)
    ensures |b| == (if a.Account? then 33 else 17)
    ensures b[0] == (if a.Account? then 0 else 1)
  {
    match a
    case Account(acc) => [0] + acc.bytes
    case Contract(c) => [1] + EncodeContractAddress(c)
  }

  function DecodeAddress(b: Bytes): (r: Option<(Address, Bytes)>)
    ensures r.Some? ==> |b| >= 17 && b[0] <= 1
    ensures |b| >= 33 && b[0] <= 1 ==> r.Some?
  {
    if |b| == 0 then None
    else if b[0] == 0 then
      if |b| < 33 then None else Some((Account(AccountAddress(b[1..33])), b[33..]))
    else if b[0] == 1 then
      match DecodeContractAddress(b[1..])
      case None => None
      case Some((c, rest)) => Some((Contract(c), rest))
    else None
  }

  lemma AccountRoundTrip(acc: AccountAddress, rest: Bytes)
    ensures DecodeAddress(EncodeAddress(Account(acc)) + rest) == Some((Account(acc), rest))
  {
    var b := [0 as byte] + acc.bytes + rest;
    assert EncodeAddress(Account(acc)) + rest == b;
    assert b[1..33] == acc.bytes;
    assert b[33..] == rest;
  }

  lemma {:induction false} ContractRoundTrip(c: ContractAddress, rest: Bytes)
    ensures DecodeAddress(EncodeAddress(Contract(c)) + rest) == Some((Contract(c), rest))
  {
    var b := EncodeAddress(Contract(c)) + rest;
    assert b[1..] == EncodeContractAddress(c) + rest;
    TaggedContractDecodes(c, rest, b);
  }

  lemma {:induction false} TaggedContractDecodes(c: ContractAddress, rest: Bytes, b: Bytes)
    requires |b| > 0 && b[0] == 1 && b[1..] == EncodeContractAddress(c) + rest
    ensures DecodeAddress(b) == Some((Contract(c), rest))
  {
    ContractAddressRoundTrip(c, rest);
  }

  lemma {:induction false} AddressRoundTrip(a: Address, rest: Bytes)
    ensures DecodeAddress(EncodeAddress(a) + rest) == Some((a, rest))
  {
    match a
    case Account(acc) => AccountRoundTrip(acc, rest);
    case Contract(c) => ContractRoundTrip(c, rest);
  }

  /** The value a decoder read, when it read one; whatever follows is ignored. */
  function Get<T>(r: Option<(T, Bytes)>): (v: Option<T>)
    ensures v.Some? <==> r.Some?
    ensures r.Some? ==> v.value == r.value.0
  {
    match r
    case None => None
    case Some((x, _)) => Some(x)
  }
}

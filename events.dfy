/** The tagged events the Proxy and the Implementation write to the log
    (`VersusEvent` and its `Serial` instance). */
module Events {
  import opened Base
  import opened Encoding

  /** `u8::MAX - 5`: the tags from `u8::MAX` down to `u8::MAX - 4` belong to CIS-2. */
  const NEW_ADMIN_EVENT_TAG: byte := 255 - 5

  /** `u8::MAX - 6`. */
  const NEW_IMPLEMENTATION_EVENT_TAG: byte := 255 - 6

  datatype VersusEvent =
    | NewAdmin(newAdmin: Address)
    | NewImplementation(newImplementation: ContractAddress)

  /** The log record of an event: its tag byte, then its one field. */
  function Serialize(e: VersusEvent): (b: Bytes)
    ensures |b| >= 1
    ensures e.NewAdmin? ==> b[0] == 250 && b[1..] == EncodeAddress(e.newAdmin)
    ensures e.NewImplementation? ==> b[0] == 249 && b[1..] == EncodeContractAddress(e.newImplementation)
  {
    match e
    case NewAdmin(a) => [NEW_ADMIN_EVENT_TAG] + EncodeAddress(a)
    case NewImplementation(c) => [NEW_IMPLEMENTATION_EVENT_TAG] + EncodeContractAddress(c)
  }

  /** Reads a log record back as an event; a record must hold exactly one event. */
  function Parse(b: Bytes): Option<VersusEvent> {
    if |b| == 0 then None
    else if b[0] == NEW_ADMIN_EVENT_TAG then
      match DecodeAddress(b[1..])
      case Some((a, rest)) => if rest == [] then Some(NewAdmin(a)) else None
      case None => None
    else if b[0] == NEW_IMPLEMENTATION_EVENT_TAG then
      match DecodeContractAddress(b[1..])
      case Some((c, rest)) => if rest == [] then Some(NewImplementation(c)) else None
      case None => None
    else None
  }

  /** A log record identifies its event: serialization loses nothing. */
  lemma {:induction false} ParseSerialize(e: VersusEvent)
    ensures Parse(Serialize(e)) == Some(e)
  {
    var b := Serialize(e);
    match e
    case NewAdmin(a) =>
      assert b[1..] == EncodeAddress(a) + [];
      AddressRoundTrip(a, []);
    case NewImplementation(c) =>
      assert b[1..] == EncodeContractAddress(c) + [];
      ContractAddressRoundTrip(c, []);
  }

  /** Distinct events have distinct log records. */
  lemma SerializeInjective(e1: VersusEvent, e2: VersusEvent)
    requires Serialize(e1) == Serialize(e2)
    ensures e1 == e2
  {
    ParseSerialize(e1);
    ParseSerialize(e2);
  }
}

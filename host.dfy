/** What a contract sees of the host ledger: the context of a call, the calls it
    makes to other contract instances, and the replies the host gives to them. */
module Host {
  import opened Base

  /** The host reports a logic reject with a negative 32-bit reason code. */
  type RejectReason = r: int | -0x8000_0000 <= r < 0 witness -1

  /** The ways a call to another contract instance can fail (`CallContractError`). */
  datatype CallError =
    | AmountTooLarge
    | MissingAccount
    | MissingContract
    | MissingEntrypoint
    | MessageFailed
    | Trap
    | LogicReject(reason: RejectReason, returnValue: Bytes)

  /** The host's reply to one call: the callee's return value (absent for a V0
      callee) or the failure. */
  datatype InvokeResult = Invoked(returnValue: Option<Bytes>) | CallFailed(error: CallError)

  /** One outgoing call: target instance, entry-point name, parameter bytes,
      attached amount, and whether it went through `invoke_contract_read_only`. */
  datatype Invocation = Invocation(
    target: ContractAddress,
    entrypoint: string,
    parameter: Bytes,
    amount: u64,
    readOnly: bool)

  /** The host's answers to the calls an entry point makes during one transaction. */
  type HostReplies = Invocation -> InvokeResult

  /** What a receive function learns from the host: who called, its own address,
      and the raw parameter. */
  datatype ReceiveContext = ReceiveContext(sender: Address, selfAddress: ContractAddress, parameter: Bytes)

  /** What an init function learns: the account that instantiates it and the parameter. */
  datatype InitContext = InitContext(initOrigin: AccountAddress, parameter: Bytes)

  /** A receive function's failure as it leaves the contract: a reason code and an
      optional return value. */
  datatype Reject = Reject(code: RejectReason, returnValue: Option<Bytes>)

  /** The reject `derive(Reject)` makes of the error enum variant with index
      `ordinal`: code -1 for the first variant, -2 for the second, and so on,
      with the serialized variant as return value. */
  function DerivedReject(ordinal: byte): (rej: Reject)
    ensures rej.code == -(ordinal as int) - 1 && rej.returnValue == Some([ordinal])
  {
    Reject(-(ordinal as int) - 1, Some([ordinal]))
  }

  /** The failure a caller observes when its callee returns `rej`. */
  function Observed(rej: Reject): (e: CallError)
    ensures e.LogicReject? && e.reason == rej.code
    ensures rej.returnValue.Some? ==> e.returnValue == rej.returnValue.value
  {
    LogicReject(rej.code, match rej.returnValue case Some(b) => b case None => [])
  }

  /** The mutating (not read-only) calls among `calls`. */
  function Mutating(calls: seq<Invocation>): (m: seq<Invocation>)
    ensures |m| <= |calls|
    ensures forall i :: 0 <= i < |m| ==> !m[i].readOnly && m[i] in calls
  {
    if calls == [] then []
    else if calls[0].readOnly then Mutating(calls[1..])
    else [calls[0]] + Mutating(calls[1..])
  }

  /** Every call but the last is read-only. */
  predicate ReadsFirst(calls: seq<Invocation>) {
    forall i :: 0 <= i < |calls| - 1 ==> calls[i].readOnly
  }

  /** In calls whose reads come first, the only mutating call can be the last. */
  lemma {:induction false} ReadsFirstMutating(calls: seq<Invocation>)
    requires ReadsFirst(calls)
    ensures Mutating(calls) == if calls != [] && !calls[|calls| - 1].readOnly then [calls[|calls| - 1]] else []
    decreases |calls|
  {
    if calls != [] {
      assert ReadsFirst(calls[1..]) by {
        forall i | 0 <= i < |calls[1..]| - 1 ensures calls[1..][i].readOnly {
          assert calls[1..][i] == calls[i + 1];
        }
      }
      ReadsFirstMutating(calls[1..]);
    }
  }

  /** The part of `HasHost` and `HasLogger` an entry point acts through: the
      host's fixed replies, and the calls and log records made so far. */
  class Link {
    const replies: HostReplies
    var calls: seq<Invocation>
    var events: seq<Bytes>

    constructor (replies: HostReplies)
      ensures this.replies == replies && calls == [] && events == []
    {
      this.replies := replies;
      calls := [];
      events := [];
    }

    /** `invoke_contract` / `invoke_contract_read_only`: records the call and
        returns the host's reply to it. */
    method Invoke(call: Invocation) returns (reply: InvokeResult)
      modifies this
      ensures reply == replies(call)
      ensures calls == old(calls) + [call] && events == old(events)
    {
      calls := calls + [call];
      reply := replies(call);
    }

    /** `logger.log`: appends one record. */
    method Log(record: Bytes)
      modifies this
      ensures events == old(events) + [record] && calls == old(calls)
    {
      events := events + [record];
    }
  }
}

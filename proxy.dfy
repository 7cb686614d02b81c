/** The Proxy contract (`Versus-Proxy`): the stable front door. It holds the
    admin and the addresses of the Implementation and the State, bootstraps
    both, forwards every entry point it does not declare itself to the current
    Implementation unaltered, and lets its admin swap the Implementation. */
module VersusProxy {
  import opened Base
  import opened Host
  import opened Encoding
  import Events

  /** `CustomContractError`, in declaration order. */
  datatype Error =
    | ParseParams
    | LogFull
    | LogMalformed
    | InvokeContractError
    | InvokeTransferError
    | ContractPaused
    | AlreadyInitialized
    | UnInitialized
    | OnlyImplementation
    | OnlyProxy
    | StateInvokeError
    | OnlyAdmin

  /** `StateProxy`. */
  datatype ProxyData = ProxyData(admin: Address, implementationAddress: ContractAddress, stateAddress: ContractAddress)

  datatype Transition<T> = Transition(result: Result<T, Error>, post: ProxyData, calls: seq<Invocation>, events: seq<Bytes>)

  /** `contract_proxy_init`: the parameter is (implementation, state); the
      instantiating account becomes admin. A parameter that does not parse is
      refused by concordium_std's own parse-error reject, not by a variant of
      `Error`, so that outcome is `None`. */
  function InitStep(ctx: InitContext): (r: Option<ProxyData>)
    ensures r.Some? <==> DecodeContractAddressPair(ctx.parameter).Some?
    ensures r.Some? ==>
      var (implementation, state) := DecodeContractAddressPair(ctx.parameter).value;
      r.value == ProxyData(Account(ctx.initOrigin), implementation, state)
  {
    match DecodeContractAddressPair(ctx.parameter)
    case None => None
    case Some((implementation, state)) => Some(ProxyData(Account(ctx.initOrigin), implementation, state))
  }

  /** `only_implementation`. */
  function OnlyImplementationGuard(implementation: ContractAddress, sender: Address): (r: Result<Unit, Error>)
    ensures r.Ok? <==> sender == Contract(implementation)
    ensures r.Err? ==> r.error == OnlyImplementation
  {
    if MatchesContract(sender, implementation) then Ok(Unit) else Err(OnlyImplementation)
  }

  /** The two calls of `initialize`, in order. */
  function InitializeStateCall(s: ProxyData, self: ContractAddress): Invocation {
    Invocation(s.stateAddress, "initialize", EncodeContractAddressPair(self, s.implementationAddress), 0, false)
  }

  function InitializeImplementationCall(s: ProxyData, self: ContractAddress): Invocation {
    Invocation(s.implementationAddress, "initialize", EncodeContractAddressPair(self, s.stateAddress), 0, false)
  }

  /** `initialize`: open to any sender; initializes the State with (this proxy,
      implementation), then the Implementation with (this proxy, state), and logs
      NewImplementation and NewAdmin. A failing call stops it with
      InvokeContractError. The Proxy's own fields never change. */
  function InitializeStep(s: ProxyData, ctx: ReceiveContext, host: HostReplies): (t: Transition<Unit>)
    ensures t.post == s
    ensures var first := InitializeStateCall(s, ctx.selfAddress);
      var second := InitializeImplementationCall(s, ctx.selfAddress);
      && (host(first).CallFailed? ==> t.result == Err(InvokeContractError) && t.calls == [first] && t.events == [])
      && (host(first).Invoked? && host(second).CallFailed? ==>
            t.result == Err(InvokeContractError) && t.calls == [first, second] && t.events == [])
      && (host(first).Invoked? && host(second).Invoked? ==>
            t.result == Ok(Unit) && t.calls == [first, second] &&
            t.events == [Events.Serialize(Events.NewImplementation(s.implementationAddress)),
                         Events.Serialize(Events.NewAdmin(s.admin))])
  {
    var first := InitializeStateCall(s, ctx.selfAddress);
    if host(first).CallFailed? then Transition(Err(InvokeContractError), s, [first], [])
    else
      var second := InitializeImplementationCall(s, ctx.selfAddress);
      if host(second).CallFailed? then Transition(Err(InvokeContractError), s, [first, second], [])
      else
        Transition(Ok(Unit), s, [first, second],
          [Events.Serialize(Events.NewImplementation(s.implementationAddress)), Events.Serialize(Events.NewAdmin(s.admin))])
  }

  /** `logEvent`: the current Implementation has the raw parameter logged as
      one record, byte for byte. */
  function LogEventStep(s: ProxyData, ctx: ReceiveContext): (t: Transition<Unit>)
    ensures t.post == s && t.calls == []
    ensures t.result.Ok? <==> ctx.sender == Contract(s.implementationAddress)
    ensures t.result.Err? ==> t.result.error == OnlyImplementation && t.events == []
    ensures t.result.Ok? ==> t.events == [ctx.parameter]
  {
    match OnlyImplementationGuard(s.implementationAddress, ctx.sender)
    case Err(e) => Transition(Err(e), s, [], [])
    case Ok(_) => Transition(Ok(Unit), s, [], [ctx.parameter])
  }

  /** `updateAdmin`: only the admin; logs NewAdmin. */
  function UpdateAdminStep(s: ProxyData, ctx: ReceiveContext): (t: Transition<Unit>)
    ensures t.calls == []
    ensures t.result.Err? ==> t.post == s && t.events == []
    ensures ctx.sender != s.admin ==> t.result == Err(OnlyAdmin)
    ensures t.result.Ok? <==> ctx.sender == s.admin && Get(DecodeAddress(ctx.parameter)).Some?
    ensures t.result.Ok? ==>
      var newAdmin := Get(DecodeAddress(ctx.parameter)).value;
      t.post == s.(admin := newAdmin) && t.events == [Events.Serialize(Events.NewAdmin(newAdmin))]
  {
    if ctx.sender != s.admin then Transition(Err(OnlyAdmin), s, [], [])
    else
      match Get(DecodeAddress(ctx.parameter))
      case None => Transition(Err(ParseParams), s, [], [])
      case Some(newAdmin) => Transition(Ok(Unit), s.(admin := newAdmin), [], [Events.Serialize(Events.NewAdmin(newAdmin))])
  }

  /** The call telling the State about a new Implementation. */
  function SetImplementationCall(state: ContractAddress, implementation: ContractAddress): Invocation {
    Invocation(state, "setImplementationAddress", EncodeContractAddress(implementation), 0, false)
  }

  /** `updateImplementation`: only the admin; records the new Implementation,
      tells the State, and logs NewImplementation. If the State's call fails the
      whole update is undone. */
  function UpdateImplementationStep(s: ProxyData, ctx: ReceiveContext, host: HostReplies): (t: Transition<Unit>)
    ensures t.result.Err? ==> t.post == s && t.events == []
    ensures ctx.sender != s.admin ==> t.result == Err(OnlyAdmin) && t.calls == []
    ensures ctx.sender == s.admin && Get(DecodeContractAddress(ctx.parameter)).None? ==>
      t.result == Err(ParseParams) && t.calls == []
    ensures ctx.sender == s.admin && Get(DecodeContractAddress(ctx.parameter)).Some? ==>
      var implementation := Get(DecodeContractAddress(ctx.parameter)).value;
      var call := SetImplementationCall(s.stateAddress, implementation);
      t.calls == [call] &&
      (t.result.Ok? <==> host(call).Invoked?) &&
      (t.result.Err? ==> t.result.error == InvokeContractError) &&
      (t.result.Ok? ==> t.post == s.(implementationAddress := implementation) &&
                        t.events == [Events.Serialize(Events.NewImplementation(implementation))])
  {
    if ctx.sender != s.admin then Transition(Err(OnlyAdmin), s, [], [])
    else
      match Get(DecodeContractAddress(ctx.parameter))
      case None => Transition(Err(ParseParams), s, [], [])
      case Some(implementation) =>
        var call := SetImplementationCall(s.stateAddress, implementation);
        if host(call).CallFailed? then Transition(Err(InvokeContractError), s, [call], [])
        else
          Transition(Ok(Unit), s.(implementationAddress := implementation), [call],
            [Events.Serialize(Events.NewImplementation(implementation))])
  }

  /** `StateProxy` as `view` serializes it. */
  function EncodeProxyData(s: ProxyData): Bytes {
    EncodeAddress(s.admin) + EncodeContractAddressPair(s.implementationAddress, s.stateAddress)
  }

  /** Reading `StateProxy` back: the admin, then the (implementation, state) pair. */
  function DecodeProxyData(b: Bytes): Option<ProxyData> {
    match DecodeAddress(b)
    case None => None
    case Some((admin, rest)) =>
      match DecodeContractAddressPair(rest)
      case None => None
      case Some((implementation, state)) => Some(ProxyData(admin, implementation, state))
  }

  /** What `view` returns reads back as the Proxy's three fields. */
  lemma {:induction false} ProxyDataRoundTrip(s: ProxyData)
    ensures DecodeProxyData(EncodeProxyData(s)) == Some(s)
  {
    var pair := EncodeContractAddressPair(s.implementationAddress, s.stateAddress);
    AddressRoundTrip(s.admin, pair);
    ContractAddressPairRoundTrip(s.implementationAddress, s.stateAddress, []);
    assert pair + [] == pair;
  }

  // ---------------------------------------------------------------------------
  // The fallback

  /** What a call to the Proxy produces. A fallback call ends in one of the last
      four: the Implementation's return value, its reject passed on with the
      same reason and bytes, the reject concordium_std makes of any other call
      failure, or an abort when the Implementation gives no return value. */
  datatype Outcome =
    | Returned(value: Bytes)
    | Rejected(error: Error)
    | NotPayable
    | Relayed(reason: RejectReason, value: Bytes)
    | CallRejected(callError: CallError)
    | Aborted

  /** The single call the fallback makes: the same entry point, the parameter
      byte for byte, and the attached amount, to the current Implementation. */
  function ForwardCall(s: ProxyData, entrypoint: string, ctx: ReceiveContext, amount: u64): Invocation {
    Invocation(s.implementationAddress, entrypoint, ctx.parameter, amount, false)
  }

  /** How the fallback turns the Implementation's reply into its own outcome. */
  function FallbackOutcome(reply: InvokeResult): (o: Outcome)
    ensures reply.Invoked? && reply.returnValue.Some? ==> o == Returned(reply.returnValue.value)
    ensures reply == Invoked(None) ==> o == Aborted
    ensures reply.CallFailed? && reply.error.LogicReject? ==> o == Relayed(reply.error.reason, reply.error.returnValue)
    ensures reply.CallFailed? && !reply.error.LogicReject? ==> o == CallRejected(reply.error)
  {
    match reply
    case Invoked(Some(b)) => Returned(b)
    case Invoked(None) => Aborted
    case CallFailed(LogicReject(reason, b)) => Relayed(reason, b)
    case CallFailed(e) => CallRejected(e)
  }

  /** The reply a fallback outcome reports back; undefined for an abort. */
  function ReplyOf(o: Outcome): Option<InvokeResult> {
    match o
    case Returned(b) => Some(Invoked(Some(b)))
    case Relayed(reason, b) => Some(CallFailed(LogicReject(reason, b)))
    case CallRejected(e) => Some(CallFailed(e))
    case _ => None
  }

  /** The fallback hides nothing: apart from a missing return value, the
      caller can read off exactly what the Implementation replied. */
  lemma FallbackTransparent(reply: InvokeResult)
    ensures reply != Invoked(None) <==> ReplyOf(FallbackOutcome(reply)).Some?
    ensures reply != Invoked(None) ==> ReplyOf(FallbackOutcome(reply)) == Some(reply)
  {
  }

  /** The entry points the Proxy declares itself; every other name goes to the
      fallback. */
  const NAMED: set<string> := {"initialize", "logEvent", "view", "updateAdmin", "updateImplementation"}

  datatype Delivery = Delivery(outcome: Outcome, post: ProxyData, calls: seq<Invocation>, events: seq<Bytes>)

  function Deliver(t: Transition<Unit>): (d: Delivery)
    ensures d.post == t.post && d.calls == t.calls && d.events == t.events
    ensures t.result.Ok? <==> d.outcome == Returned([])
    ensures t.result.Err? ==> d.outcome == Rejected(t.result.error)
  {
    Delivery(if t.result.Ok? then Returned([]) else Rejected(t.result.error), t.post, t.calls, t.events)
  }

  /** One call to the Proxy carrying `amount`. Only the fallback is payable. */
  function Receive(s: ProxyData, entrypoint: string, ctx: ReceiveContext, amount: u64, host: HostReplies): (d: Delivery)
    ensures entrypoint in NAMED && amount != 0 ==> d == Delivery(NotPayable, s, [], [])
    ensures entrypoint !in NAMED ==>
      var call := ForwardCall(s, entrypoint, ctx, amount);
      d == Delivery(FallbackOutcome(host(call)), s, [call], [])
  {
    if entrypoint in NAMED && amount != 0 then Delivery(NotPayable, s, [], [])
    else if entrypoint == "initialize" then Deliver(InitializeStep(s, ctx, host))
    else if entrypoint == "logEvent" then Deliver(LogEventStep(s, ctx))
    else if entrypoint == "view" then Delivery(Returned(EncodeProxyData(s)), s, [], [])
    else if entrypoint == "updateAdmin" then Deliver(UpdateAdminStep(s, ctx))
    else if entrypoint == "updateImplementation" then Deliver(UpdateImplementationStep(s, ctx, host))
    else
      var call := ForwardCall(s, entrypoint, ctx, amount);
      Delivery(FallbackOutcome(host(call)), s, [call], [])
  }

  // ---------------------------------------------------------------------------
  // Properties

  /** After `updateImplementation(I)` succeeds, the fallback sends to I. */
  lemma ForwardsToNewImplementation(s: ProxyData, ctx: ReceiveContext, host: HostReplies, implementation: ContractAddress,
                                    entrypoint: string, user: ReceiveContext, amount: u64)
    requires ctx.sender == s.admin && ctx.parameter == EncodeContractAddress(implementation)
    requires host(SetImplementationCall(s.stateAddress, implementation)).Invoked?
    requires entrypoint !in NAMED
    ensures var t := UpdateImplementationStep(s, ctx, host);
      t.result.Ok? && t.post.implementationAddress == implementation &&
      Receive(t.post, entrypoint, user, amount, host).calls ==
        [Invocation(implementation, entrypoint, user.parameter, amount, false)]
  {
    ContractAddressRoundTrip(implementation, []);
    assert EncodeContractAddress(implementation) + [] == ctx.parameter;
  }

  /** Admin rotation on the Proxy: the new admin is in charge, the old one is
      refused, and the new one can hand the role on again. */
  lemma AdminRotation(s: ProxyData, ctx: ReceiveContext, newAdmin: Address, next: ReceiveContext, further: Address, host: HostReplies)
    requires ctx.sender == s.admin && ctx.parameter == EncodeAddress(newAdmin)
    requires next.sender == s.admin && s.admin != newAdmin
    ensures var t := UpdateAdminStep(s, ctx);
      && t.result.Ok? && t.post == s.(admin := newAdmin)
      && t.events == [Events.Serialize(Events.NewAdmin(newAdmin))]
      && UpdateAdminStep(t.post, next).result == Err(OnlyAdmin)
      && UpdateImplementationStep(t.post, next, host).result == Err(OnlyAdmin)
      && UpdateAdminStep(t.post, ctx.(sender := newAdmin, parameter := EncodeAddress(further))).result.Ok?
  {
    AddressRoundTrip(newAdmin, []);
    assert EncodeAddress(newAdmin) + [] == ctx.parameter;
    AddressRoundTrip(further, []);
    assert EncodeAddress(further) + [] == EncodeAddress(further);
  }

  /** Who can change what: the admin changes only through `updateAdmin` from the
      admin, the Implementation only through `updateImplementation` from the
      admin with the State's call succeeding, and the State address never. */
  lemma ReceiveChanges(s: ProxyData, entrypoint: string, ctx: ReceiveContext, amount: u64, host: HostReplies)
    ensures var d := Receive(s, entrypoint, ctx, amount, host);
      && d.post.stateAddress == s.stateAddress
      && (d.post.admin != s.admin ==> entrypoint == "updateAdmin" && ctx.sender == s.admin)
      && (d.post.implementationAddress != s.implementationAddress ==>
            entrypoint == "updateImplementation" && ctx.sender == s.admin &&
            d.calls == [SetImplementationCall(s.stateAddress, d.post.implementationAddress)] &&
            host(d.calls[0]).Invoked?)
  {
  }

  /** One call as the host delivers it. */
  datatype Call = Call(entrypoint: string, ctx: ReceiveContext, amount: u64, host: HostReplies)

  function Run(s: ProxyData, calls: seq<Call>): ProxyData
    decreases |calls|
  {
    if calls == [] then s
    else Run(Receive(s, calls[0].entrypoint, calls[0].ctx, calls[0].amount, calls[0].host).post, calls[1..])
  }

  /** The State address fixed at instantiation never changes, and a run with no
      call from the admin keeps admin and Implementation as they were. */
  lemma {:induction false} StateAddressIsPermanent(s: ProxyData, calls: seq<Call>)
    ensures Run(s, calls).stateAddress == s.stateAddress
    ensures (forall i :: 0 <= i < |calls| ==> calls[i].ctx.sender != s.admin) ==> Run(s, calls) == s
    decreases |calls|
  {
    if calls != [] {
      var c := calls[0];
      ReceiveChanges(s, c.entrypoint, c.ctx, c.amount, c.host);
      var next := Receive(s, c.entrypoint, c.ctx, c.amount, c.host).post;
      StateAddressIsPermanent(next, calls[1..]);
      if forall i :: 0 <= i < |calls| ==> calls[i].ctx.sender != s.admin {
        assert next == s;
        assert forall i :: 0 <= i < |calls[1..]| ==> calls[1..][i].ctx.sender != s.admin by {
          forall i | 0 <= i < |calls[1..]| ensures calls[1..][i].ctx.sender != s.admin {
            assert calls[1..][i] == calls[i + 1];
          }
        }
      }
    }
  }

  // ---------------------------------------------------------------------------
  // The contract as an object updated in place

  class Proxy {
    var admin: Address
    var implementationAddress: ContractAddress
    var stateAddress: ContractAddress

    function Data(): ProxyData
      reads this
    {
      ProxyData(admin, implementationAddress, stateAddress)
    }

    constructor (data: ProxyData)
      ensures Data() == data
    {
      admin, implementationAddress, stateAddress := data.admin, data.implementationAddress, data.stateAddress;
    }

    /** `contract_proxy_init`: an instance, or none when the parameter is refused. */
    static method Instantiate(ctx: InitContext) returns (p: Proxy?)
      ensures p == null <==> InitStep(ctx).None?
      ensures p != null ==> fresh(p) && p.Data() == InitStep(ctx).value
    {
      var params := DecodeContractAddressPair(ctx.parameter);
      if params.None? {
        return null;
      }
      var (implementation, state) := params.value;
      p := new Proxy(ProxyData(Account(ctx.initOrigin), implementation, state));
    }

    method Initialize(ctx: ReceiveContext, link: Link) returns (r: Result<Unit, Error>)
      modifies link
      ensures var t := InitializeStep(Data(), ctx, link.replies);
        r == t.result && link.calls == old(link.calls) + t.calls && link.events == old(link.events) + t.events
    {
      var reply := link.Invoke(InitializeStateCall(Data(), ctx.selfAddress));
      if reply.CallFailed? {
        return Err(InvokeContractError);
      }
      reply := link.Invoke(InitializeImplementationCall(Data(), ctx.selfAddress));
      if reply.CallFailed? {
        return Err(InvokeContractError);
      }
      link.Log(Events.Serialize(Events.NewImplementation(implementationAddress)));
      link.Log(Events.Serialize(Events.NewAdmin(admin)));
      return Ok(Unit);
    }

    method LogEvent(ctx: ReceiveContext, link: Link) returns (r: Result<Unit, Error>)
      modifies link
      ensures var t := LogEventStep(Data(), ctx);
        r == t.result && link.calls == old(link.calls) && link.events == old(link.events) + t.events
    {
      if !MatchesContract(ctx.sender, implementationAddress) {
        return Err(OnlyImplementation);
      }
      link.Log(ctx.parameter);
      return Ok(Unit);
    }

    method UpdateAdmin(ctx: ReceiveContext, link: Link) returns (r: Result<Unit, Error>)
      modifies this, link
      ensures var t := UpdateAdminStep(old(Data()), ctx);
        r == t.result && Data() == t.post && link.calls == old(link.calls) && link.events == old(link.events) + t.events
    {
      if ctx.sender != admin {
        return Err(OnlyAdmin);
      }
      var newAdmin := Get(DecodeAddress(ctx.parameter));
      if newAdmin.None? {
        return Err(ParseParams);
      }
      admin := newAdmin.value;
      link.Log(Events.Serialize(Events.NewAdmin(newAdmin.value)));
      return Ok(Unit);
    }

    method UpdateImplementation(ctx: ReceiveContext, link: Link) returns (r: Result<Unit, Error>)
      modifies this, link
      ensures var t := UpdateImplementationStep(old(Data()), ctx, link.replies);
        r == t.result && Data() == t.post && link.calls == old(link.calls) + t.calls && link.events == old(link.events) + t.events
    {
      if ctx.sender != admin {
        return Err(OnlyAdmin);
      }
      var params := Get(DecodeContractAddress(ctx.parameter));
      if params.None? {
        return Err(ParseParams);
      }
      var previous := implementationAddress;
      implementationAddress := params.value;
      var reply := link.Invoke(SetImplementationCall(stateAddress, params.value));
      if reply.CallFailed? {
        // The reject undoes the write above.
        implementationAddress := previous;
        return Err(InvokeContractError);
      }
      link.Log(Events.Serialize(Events.NewImplementation(params.value)));
      return Ok(Unit);
    }

    /** The fallback, for an entry point the Proxy does not declare. */
    method Fallback(entrypoint: string, ctx: ReceiveContext, amount: u64, link: Link) returns (o: Outcome)
      modifies link
      ensures var call := ForwardCall(Data(), entrypoint, ctx, amount);
        o == FallbackOutcome(link.replies(call)) && link.calls == old(link.calls) + [call] && link.events == old(link.events)
    {
      var reply := link.Invoke(Invocation(implementationAddress, entrypoint, ctx.parameter, amount, false));
      if reply.CallFailed? {
        if reply.error.LogicReject? {
          return Relayed(reply.error.reason, reply.error.returnValue);
        }
        return CallRejected(reply.error);
      }
      if reply.returnValue.None? {
        return Aborted;
      }
      return Returned(reply.returnValue.value);
    }

    method ViewData() returns (value: Bytes)
      ensures DecodeProxyData(value) == Some(Data())
    {
      value := EncodeAddress(admin) + EncodeContractAddressPair(implementationAddress, stateAddress);
      ProxyDataRoundTrip(Data());
    }
  }
}

/** The Implementation contract (`Versus-Implementation`): the business rules.
    It keeps an admin and the (proxy, state) pair it trusts; its business entry
    points accept calls only from the Proxy, read the State's pause flag, and
    forward one mutation to the State. Calls to the State are made through the
    host, whose replies are a parameter (`HostReplies`); each step returns the
    calls it made and the records it logged. */
module VersusImplementation {
  import opened Base
  import opened Host
  import opened Encoding
  import Events

  datatype PlayerState = NotAdded | Active | Suspended

  datatype BattleResult = NoResult | Win | Loss

  datatype ProtocolAddresses =
    | UnInitialized
    | Initialized(proxyAddress: ContractAddress, stateAddress: ContractAddress)

  /** `CustomContractError`, in declaration order. */
  datatype Error =
    | ParseParamsError
    | LogFull
    | LogMalformed
    | InvokeContractError
    | ContractPaused
    | AlreadyInitialized
    | UnInitialized
    | OnlyProxy
    | StateInvokeError
    | OnlyAdmin
    | AlreadyAdded

  /** `StateImplementation`: the durable state of one Implementation instance. */
  datatype ImplementationData = ImplementationData(admin: Address, protocolAddresses: ProtocolAddresses)

  /** The outcome of an entry point: its result, the state afterwards, the calls
      it made in order, and the records it logged. */
  datatype Transition<T> = Transition(result: Result<T, Error>, post: ImplementationData, calls: seq<Invocation>, events: seq<Bytes>)

  // ---------------------------------------------------------------------------
  // Wire format of the Implementation's own types

  /** Which ordinals `PlayerState` is serialized with: `Declared` is the
      declaration order (NotAdded 0, Active 1, Suspended 2); `Aligned` agrees
      with the State's `PlayerState` on the two names both declare (Active 0,
      Suspended 1) and puts NotAdded, which the State cannot store, last. */
  datatype Numbering = Declared | Aligned

  function PlayerStateOrdinal(n: Numbering, p: PlayerState): (o: byte)
    ensures o <= 2
  {
    match (n, p)
    case (Declared, NotAdded) => 0
    case (Declared, Active) => 1
    case (Declared, Suspended) => 2
    case (Aligned, Active) => 0
    case (Aligned, Suspended) => 1
    case (Aligned, NotAdded) => 2
  }

  /** Both numberings give each of the three states its own ordinal. */
  lemma PlayerStateOrdinalInjective(n: Numbering)
    ensures forall p, q :: PlayerStateOrdinal(n, p) == PlayerStateOrdinal(n, q) ==> p == q
  {
  }

  function DecodePlayerState(n: Numbering, b: Bytes): (r: Option<(PlayerState, Bytes)>)
    ensures r.Some? <==> |b| >= 1 && b[0] <= 2
    ensures r.Some? ==> PlayerStateOrdinal(n, r.value.0) == b[0] && r.value.1 == b[1..]
  {
    if |b| == 0 then None
    else if PlayerStateOrdinal(n, NotAdded) == b[0] then Some((NotAdded, b[1..]))
    else if PlayerStateOrdinal(n, Active) == b[0] then Some((Active, b[1..]))
    else if PlayerStateOrdinal(n, Suspended) == b[0] then Some((Suspended, b[1..]))
    else None
  }

  lemma PlayerStateRoundTrip(n: Numbering, p: PlayerState, rest: Bytes)
    ensures DecodePlayerState(n, [PlayerStateOrdinal(n, p)] + rest) == Some((p, rest))
  {
    var b := [PlayerStateOrdinal(n, p)] + rest;
    assert b[1..] == rest;
    PlayerStateOrdinalInjective(n);
  }

  function BattleResultOrdinal(r: BattleResult): byte {
    match r
    case NoResult => 0
    case Win => 1
    case Loss => 2
  }

  function DecodeBattleResult(b: Bytes): (r: Option<(BattleResult, Bytes)>)
    ensures r.Some? <==> |b| >= 1 && b[0] <= 2
    ensures r.Some? ==> BattleResultOrdinal(r.value.0) == b[0] && r.value.1 == b[1..]
  {
    if |b| == 0 then None
    else if b[0] == 0 then Some((NoResult, b[1..]))
    else if b[0] == 1 then Some((Win, b[1..]))
    else if b[0] == 2 then Some((Loss, b[1..]))
    else None
  }

  /** `UpdatePlayerStateParams`: the player, then the state's ordinal. */
  function EncodeUpdatePlayerStateParams(n: Numbering, player: Address, state: PlayerState): Bytes {
    EncodeAddress(player) + [PlayerStateOrdinal(n, state)]
  }

  function DecodeUpdatePlayerStateParams(n: Numbering, b: Bytes): Option<(Address, PlayerState)> {
    match DecodeAddress(b)
    case None => None
    case Some((player, rest)) =>
      match DecodePlayerState(n, rest)
      case None => None
      case Some((state, _)) => Some((player, state))
  }

  /** `UpdateBattleResultParams`: the player, then the result's ordinal. */
  function EncodeUpdateBattleResultParams(player: Address, result: BattleResult): Bytes {
    EncodeAddress(player) + [BattleResultOrdinal(result)]
  }

  function DecodeUpdateBattleResultParams(b: Bytes): Option<(Address, BattleResult)> {
    match DecodeAddress(b)
    case None => None
    case Some((player, rest)) =>
      match DecodeBattleResult(rest)
      case None => None
      case Some((result, _)) => Some((player, result))
  }

  /** `(PlayerState, BattleResult)`, the reply of the State's `getPlayerData`. */
  function DecodePlayerData(n: Numbering, b: Bytes): Option<(PlayerState, BattleResult)> {
    match DecodePlayerState(n, b)
    case None => None
    case Some((state, rest)) =>
      match DecodeBattleResult(rest)
      case None => None
      case Some((result, _)) => Some((state, result))
  }

  /** The parameters the Implementation forwards decode back to what it parsed. */
  lemma UpdatePlayerStateParamsRoundTrip(n: Numbering, player: Address, state: PlayerState)
    ensures DecodeUpdatePlayerStateParams(n, EncodeUpdatePlayerStateParams(n, player, state)) == Some((player, state))
  {
    AddressRoundTrip(player, [PlayerStateOrdinal(n, state)]);
    PlayerStateRoundTrip(n, state, []);
  }

  lemma UpdateBattleResultParamsRoundTrip(player: Address, result: BattleResult)
    ensures DecodeUpdateBattleResultParams(EncodeUpdateBattleResultParams(player, result)) == Some((player, result))
  {
    AddressRoundTrip(player, [BattleResultOrdinal(result)]);
  }

  // ---------------------------------------------------------------------------
  // Construction and guards

  /** `StateImplementation::new`. */
  function New(admin: Address): ImplementationData {
    ImplementationData(admin, ProtocolAddresses.UnInitialized)
  }

  /** `contract_init`: the instantiating account becomes admin, the addresses are
      not set yet, and one NewAdmin event is logged for that account. */
  function Init(ctx: InitContext): (r: (ImplementationData, seq<Bytes>))
    ensures r.0.admin == Account(ctx.initOrigin) && r.0.protocolAddresses.UnInitialized?
    ensures |r.1| == 1 && Events.Parse(r.1[0]) == Some(Events.NewAdmin(Account(ctx.initOrigin)))
  {
    Events.ParseSerialize(Events.NewAdmin(Account(ctx.initOrigin)));
    (New(Account(ctx.initOrigin)), [Events.Serialize(Events.NewAdmin(Account(ctx.initOrigin)))])
  }

  /** `get_protocol_addresses_from_implementation`: the (proxy, state) pair, once set. */
  function GetProtocolAddresses(s: ImplementationData): (r: Result<(ContractAddress, ContractAddress), Error>)
    ensures r.Ok? <==> s.protocolAddresses.Initialized?
    ensures r.Err? ==> r.error == Error.UnInitialized
    ensures r.Ok? ==> r.value == (s.protocolAddresses.proxyAddress, s.protocolAddresses.stateAddress)
  {
    match s.protocolAddresses
    case UnInitialized => Err(Error.UnInitialized)
    case Initialized(proxy, state) => Ok((proxy, state))
  }

  /** `only_proxy`. */
  function OnlyProxyGuard(proxy: ContractAddress, sender: Address): (r: Result<Unit, Error>)
    ensures r.Ok? <==> sender == Contract(proxy)
    ensures r.Err? ==> r.error == OnlyProxy
  {
    if MatchesContract(sender, proxy) then Ok(Unit) else Err(OnlyProxy)
  }

  /** The read of the State's pause flag. */
  function PausedQuery(state: ContractAddress): Invocation {
    Invocation(state, "getPaused", [], 0, true)
  }

  /** How a reply to a read-only call becomes a value: a failed call is
      InvokeContractError, a missing return value StateInvokeError, and bytes
      that do not decode ParseParamsError. */
  function ReadReply<T>(reply: InvokeResult, decode: Bytes -> Option<T>): (r: Result<T, Error>)
    ensures reply.CallFailed? ==> r == Err(InvokeContractError)
    ensures reply == Invoked(None) ==> r == Err(StateInvokeError)
    ensures reply.Invoked? && reply.returnValue.Some? ==>
      r == (match decode(reply.returnValue.value) case Some(v) => Ok(v) case None => Err(ParseParamsError))
  {
    match reply
    case CallFailed(_) => Err(InvokeContractError)
    case Invoked(None) => Err(StateInvokeError)
    case Invoked(Some(b)) =>
      match decode(b)
      case None => Err(ParseParamsError)
      case Some(v) => Ok(v)
  }

  function DecodeFlag(b: Bytes): (r: Option<bool>)
    ensures r == Get(DecodeBool(b))
  {
    Get(DecodeBool(b))
  }

  /** `when_not_paused`, given the host's reply to the pause read. */
  function WhenNotPaused(reply: InvokeResult): (r: Result<Unit, Error>)
    ensures reply == Invoked(Some(EncodeBool(true))) ==> r == Err(ContractPaused)
    ensures reply == Invoked(Some(EncodeBool(false))) ==> r == Ok(Unit)
    ensures reply == Invoked(None) ==> r == Err(StateInvokeError)
    ensures reply.CallFailed? ==> r == Err(InvokeContractError)
    ensures r.Ok? ==> reply.Invoked? && reply.returnValue.Some? && Get(DecodeBool(reply.returnValue.value)) == Some(false)
  {
    match ReadReply(reply, DecodeFlag)
    case Err(e) => Err(e)
    case Ok(paused) => if paused then Err(ContractPaused) else Ok(Unit)
  }

  /** The guards of the business entry points, in order: initialized, sent by the
      Proxy, not paused. Returns the State's address and the calls made so far. */
  function BusinessGuards(s: ImplementationData, ctx: ReceiveContext, host: HostReplies): (r: (Result<ContractAddress, Error>, seq<Invocation>))
    ensures forall i :: 0 <= i < |r.1| ==> r.1[i].readOnly
    ensures s.protocolAddresses.UnInitialized? ==> r == (Err(Error.UnInitialized), [])
    ensures s.protocolAddresses.Initialized? && ctx.sender != Contract(s.protocolAddresses.proxyAddress) ==>
      r == (Err(OnlyProxy), [])
    ensures s.protocolAddresses.Initialized? && ctx.sender == Contract(s.protocolAddresses.proxyAddress) ==>
      var q := PausedQuery(s.protocolAddresses.stateAddress);
      r.1 == [q] &&
      (WhenNotPaused(host(q)).Err? ==> r.0 == Err(WhenNotPaused(host(q)).error)) &&
      (WhenNotPaused(host(q)).Ok? ==> r.0 == Ok(s.protocolAddresses.stateAddress))
  {
    match GetProtocolAddresses(s)
    case Err(e) => (Err(e), [])
    case Ok((proxy, state)) =>
      match OnlyProxyGuard(proxy, ctx.sender)
      case Err(e) => (Err(e), [])
      case Ok(_) =>
        var q := PausedQuery(state);
        match WhenNotPaused(host(q))
        case Err(e) => (Err(e), [q])
        case Ok(_) => (Ok(state), [q])
  }

  /** A mutating call to the State, and its outcome: any failure of the call is
      InvokeContractError. */
  function Forward(state: ContractAddress, entrypoint: string, parameter: Bytes, host: HostReplies): (r: (Result<Unit, Error>, Invocation))
    ensures r.1 == Invocation(state, entrypoint, parameter, 0, false)
    ensures r.0.Ok? <==> host(r.1).Invoked?
    ensures r.0.Err? ==> r.0.error == InvokeContractError
  {
    var call := Invocation(state, entrypoint, parameter, 0, false);
    (if host(call).CallFailed? then Err(InvokeContractError) else Ok(Unit), call)
  }

  // ---------------------------------------------------------------------------
  // Entry points, as steps

  /** `initialize`: one-shot, with no check on the sender. */
  function InitializeStep(s: ImplementationData, ctx: ReceiveContext): (t: Transition<Unit>)
    ensures ReadsFirst(t.calls)
    ensures t.calls == [] && t.events == []
    ensures t.result.Err? ==> t.post == s
    ensures s.protocolAddresses.Initialized? ==> t.result == Err(AlreadyInitialized)
    ensures t.result.Ok? <==> s.protocolAddresses.UnInitialized? && DecodeContractAddressPair(ctx.parameter).Some?
    ensures t.result.Ok? ==>
      var (proxy, state) := DecodeContractAddressPair(ctx.parameter).value;
      t.post == s.(protocolAddresses := Initialized(proxy, state))
  {
    if s.protocolAddresses != ProtocolAddresses.UnInitialized then Transition(Err(AlreadyInitialized), s, [], [])
    else
      match DecodeContractAddressPair(ctx.parameter)
      case None => Transition(Err(ParseParamsError), s, [], [])
      case Some((proxy, state)) =>
        Transition(Ok(Unit), s.(protocolAddresses := Initialized(proxy, state)), [], [])
  }

  /** `updatePlayerState` with `PlayerState` serialized by `n`: after the
      business guards, parses (player, state) and forwards exactly that to the
      State's `updatePlayerState`. */
  function UpdatePlayerStateWith(n: Numbering, s: ImplementationData, ctx: ReceiveContext, host: HostReplies): (t: Transition<Unit>)
    ensures ReadsFirst(t.calls)
    ensures t.post == s && t.events == []
    ensures var (g, guardCalls) := BusinessGuards(s, ctx, host);
      && (g.Err? ==> t.result == Err(g.error) && t.calls == guardCalls)
      && (g.Ok? && DecodeUpdatePlayerStateParams(n, ctx.parameter).None? ==> t.result == Err(ParseParamsError) && t.calls == guardCalls)
      && (g.Ok? && DecodeUpdatePlayerStateParams(n, ctx.parameter).Some? ==>
            var (player, state) := DecodeUpdatePlayerStateParams(n, ctx.parameter).value;
            var call := Invocation(g.value, "updatePlayerState", EncodeUpdatePlayerStateParams(n, player, state), 0, false);
            t.calls == guardCalls + [call] && (t.result.Ok? <==> host(call).Invoked?)
            && (t.result.Err? ==> t.result.error == InvokeContractError))
  {
    var (g, guardCalls) := BusinessGuards(s, ctx, host);
    if g.Err? then Transition(Err(g.error), s, guardCalls, [])
    else
      match DecodeUpdatePlayerStateParams(n, ctx.parameter)
      case None => Transition(Err(ParseParamsError), s, guardCalls, [])
      case Some((player, state)) =>
        var (r, call) := Forward(g.value, "updatePlayerState", EncodeUpdatePlayerStateParams(n, player, state), host);
        Transition(r, s, guardCalls + [call], [])
  }

  /** `updatePlayerState` with the declared ordinals. */
  function UpdatePlayerStateAsWritten(s: ImplementationData, ctx: ReceiveContext, host: HostReplies): (t: Transition<Unit>)
    ensures t == UpdatePlayerStateWith(Declared, s, ctx, host)
  {
    UpdatePlayerStateWith(Declared, s, ctx, host)
  }

  /** `updatePlayerState` with ordinals the State reads back under the same names. */
  function UpdatePlayerStateStep(s: ImplementationData, ctx: ReceiveContext, host: HostReplies): (t: Transition<Unit>)
    ensures t == UpdatePlayerStateWith(Aligned, s, ctx, host)
  {
    UpdatePlayerStateWith(Aligned, s, ctx, host)
  }

  /** `updateBattleResult`: after the business guards, parses (player, result) and
      forwards exactly that to the State's `updateBattleResult`. */
  function UpdateBattleResultStep(s: ImplementationData, ctx: ReceiveContext, host: HostReplies): (t: Transition<Unit>)
    ensures ReadsFirst(t.calls)
    ensures t.post == s && t.events == []
    ensures var (g, guardCalls) := BusinessGuards(s, ctx, host);
      && (g.Err? ==> t.result == Err(g.error) && t.calls == guardCalls)
      && (g.Ok? && DecodeUpdateBattleResultParams(ctx.parameter).None? ==> t.result == Err(ParseParamsError) && t.calls == guardCalls)
      && (g.Ok? && DecodeUpdateBattleResultParams(ctx.parameter).Some? ==>
            var (player, result) := DecodeUpdateBattleResultParams(ctx.parameter).value;
            var call := Invocation(g.value, "updateBattleResult", EncodeUpdateBattleResultParams(player, result), 0, false);
            t.calls == guardCalls + [call] && (t.result.Ok? <==> host(call).Invoked?)
            && (t.result.Err? ==> t.result.error == InvokeContractError))
  {
    var (g, guardCalls) := BusinessGuards(s, ctx, host);
    if g.Err? then Transition(Err(g.error), s, guardCalls, [])
    else
      match DecodeUpdateBattleResultParams(ctx.parameter)
      case None => Transition(Err(ParseParamsError), s, guardCalls, [])
      case Some((player, result)) =>
        var (r, call) := Forward(g.value, "updateBattleResult", EncodeUpdateBattleResultParams(player, result), host);
        Transition(r, s, guardCalls + [call], [])
  }

  /** The read of the State's `isAdded` for `player` (an entry point the State
      does not declare). */
  function IsAddedQuery(state: ContractAddress, player: Address): Invocation {
    Invocation(state, "isAdded", EncodeAddress(player), 0, true)
  }

  /** `addPlayer` with the `AlreadyAdded` guard rejecting when `is_added` equals
      `rejectWhenAdded`; the other steps are those of the source. */
  function AddPlayerWith(s: ImplementationData, ctx: ReceiveContext, host: HostReplies, rejectWhenAdded: bool): (t: Transition<Unit>)
    ensures ReadsFirst(t.calls)
    ensures t.post == s && t.events == []
    ensures var (g, guardCalls) := BusinessGuards(s, ctx, host);
      && (g.Err? ==> t.result == Err(g.error) && t.calls == guardCalls)
      && (g.Ok? && Get(DecodeAddress(ctx.parameter)).None? ==> t.result == Err(ParseParamsError) && t.calls == guardCalls)
      && (g.Ok? && Get(DecodeAddress(ctx.parameter)).Some? ==>
            var player := Get(DecodeAddress(ctx.parameter)).value;
            var q := IsAddedQuery(g.value, player);
            var added := ReadReply(host(q), DecodeFlag);
            var call := Invocation(g.value, "addPlayer", EncodeAddress(player), 0, false);
            && (added.Err? ==> t.result == Err(added.error) && t.calls == guardCalls + [q])
            && (added.Ok? && added.value == rejectWhenAdded ==> t.result == Err(AlreadyAdded) && t.calls == guardCalls + [q])
            && (added.Ok? && added.value != rejectWhenAdded ==>
                  t.calls == guardCalls + [q, call] && (t.result.Ok? <==> host(call).Invoked?)))
  {
    var (g, guardCalls) := BusinessGuards(s, ctx, host);
    if g.Err? then Transition(Err(g.error), s, guardCalls, [])
    else
      match Get(DecodeAddress(ctx.parameter))
      case None => Transition(Err(ParseParamsError), s, guardCalls, [])
      case Some(player) =>
        var q := IsAddedQuery(g.value, player);
        match ReadReply(host(q), DecodeFlag)
        case Err(e) => Transition(Err(e), s, guardCalls + [q], [])
        case Ok(added) =>
          if added == rejectWhenAdded then Transition(Err(AlreadyAdded), s, guardCalls + [q], [])
          else
            var (r, call) := Forward(g.value, "addPlayer", EncodeAddress(player), host);
            Transition(r, s, guardCalls + [q, call], [])
  }

  /** `addPlayer` as written: `ensure!(is_added(..), AlreadyAdded)` rejects a
      player who is NOT added. */
  function AddPlayerAsWritten(s: ImplementationData, ctx: ReceiveContext, host: HostReplies): (t: Transition<Unit>)
    ensures t == AddPlayerWith(s, ctx, host, false)
  {
    AddPlayerWith(s, ctx, host, false)
  }

  /** `addPlayer` as its error name intends: rejects a player who is already added. */
  function AddPlayerStep(s: ImplementationData, ctx: ReceiveContext, host: HostReplies): (t: Transition<Unit>)
    ensures t == AddPlayerWith(s, ctx, host, true)
  {
    AddPlayerWith(s, ctx, host, true)
  }

  /** `updateAdmin`: only the current admin, no initialization needed; logs
      NewAdmin for the new admin. */
  function UpdateAdminStep(s: ImplementationData, ctx: ReceiveContext): (t: Transition<Unit>)
    ensures ReadsFirst(t.calls)
    ensures t.calls == []
    ensures t.result.Err? ==> t.post == s && t.events == []
    ensures ctx.sender != s.admin ==> t.result == Err(OnlyAdmin)
    ensures t.result.Ok? <==> ctx.sender == s.admin && Get(DecodeAddress(ctx.parameter)).Some?
    ensures t.result.Ok? ==>
      var newAdmin := Get(DecodeAddress(ctx.parameter)).value;
      t.post == s.(admin := newAdmin) && t.events == [Events.Serialize(Events.NewAdmin(newAdmin))]
  {
    if ctx.sender != s.admin then Transition(Err(OnlyAdmin), s, [], [])
    else
      match Get(DecodeAddress(ctx.parameter))
      case None => Transition(Err(ParseParamsError), s, [], [])
      case Some(newAdmin) => Transition(Ok(Unit), s.(admin := newAdmin), [], [Events.Serialize(Events.NewAdmin(newAdmin))])
  }

  /** `pause` (`paused` true) and `unpause` (false): the admin check first, then
      the addresses, then exactly one `setPaused(paused)` to the State. */
  function SetPausedWith(s: ImplementationData, ctx: ReceiveContext, host: HostReplies, paused: bool): (t: Transition<Unit>)
    ensures ReadsFirst(t.calls)
    ensures t.post == s && t.events == []
    ensures ctx.sender != s.admin ==> t.result == Err(OnlyAdmin) && t.calls == []
    ensures ctx.sender == s.admin && s.protocolAddresses.UnInitialized? ==> t.result == Err(Error.UnInitialized) && t.calls == []
    ensures ctx.sender == s.admin && s.protocolAddresses.Initialized? ==>
      var call := Invocation(s.protocolAddresses.stateAddress, "setPaused", EncodeBool(paused), 0, false);
      t.calls == [call] && (t.result.Ok? <==> host(call).Invoked?) && (t.result.Err? ==> t.result.error == InvokeContractError)
  {
    if ctx.sender != s.admin then Transition(Err(OnlyAdmin), s, [], [])
    else
      match GetProtocolAddresses(s)
      case Err(e) => Transition(Err(e), s, [], [])
      case Ok((_, state)) =>
        var (r, call) := Forward(state, "setPaused", EncodeBool(paused), host);
        Transition(r, s, [call], [])
  }

  function PauseStep(s: ImplementationData, ctx: ReceiveContext, host: HostReplies): (t: Transition<Unit>)
    ensures t == SetPausedWith(s, ctx, host, true)
  {
    SetPausedWith(s, ctx, host, true)
  }

  function UnpauseStep(s: ImplementationData, ctx: ReceiveContext, host: HostReplies): (t: Transition<Unit>)
    ensures t == SetPausedWith(s, ctx, host, false)
  {
    SetPausedWith(s, ctx, host, false)
  }

  /** The read of the State's record for `player`. */
  function PlayerDataQuery(state: ContractAddress, player: Address): Invocation {
    Invocation(state, "getPlayerData", EncodeAddress(player), 0, true)
  }

  /** `getPlayerData` with `PlayerState` read by `n`: parses the player first,
      then needs the addresses, then reads the State's record; no check on the
      sender. */
  function GetPlayerDataWith(n: Numbering, s: ImplementationData, ctx: ReceiveContext, host: HostReplies): (t: Transition<(PlayerState, BattleResult)>)
    ensures ReadsFirst(t.calls)
    ensures t.post == s && t.events == []
    ensures Get(DecodeAddress(ctx.parameter)).None? ==> t.result == Err(ParseParamsError) && t.calls == []
    ensures Get(DecodeAddress(ctx.parameter)).Some? && s.protocolAddresses.UnInitialized? ==>
      t.result == Err(Error.UnInitialized) && t.calls == []
    ensures Get(DecodeAddress(ctx.parameter)).Some? && s.protocolAddresses.Initialized? ==>
      var q := PlayerDataQuery(s.protocolAddresses.stateAddress, Get(DecodeAddress(ctx.parameter)).value);
      t.calls == [q] && t.result == ReadReply(host(q), b => DecodePlayerData(n, b))
  {
    match Get(DecodeAddress(ctx.parameter))
    case None => Transition(Err(ParseParamsError), s, [], [])
    case Some(player) =>
      match GetProtocolAddresses(s)
      case Err(e) => Transition(Err(e), s, [], [])
      case Ok((_, state)) =>
        var q := PlayerDataQuery(state, player);
        Transition(ReadReply(host(q), b => DecodePlayerData(n, b)), s, [q], [])
  }

  function GetPlayerDataAsWritten(s: ImplementationData, ctx: ReceiveContext, host: HostReplies): (t: Transition<(PlayerState, BattleResult)>)
    ensures t == GetPlayerDataWith(Declared, s, ctx, host)
  {
    GetPlayerDataWith(Declared, s, ctx, host)
  }

  function GetPlayerDataStep(s: ImplementationData, ctx: ReceiveContext, host: HostReplies): (t: Transition<(PlayerState, BattleResult)>)
    ensures t == GetPlayerDataWith(Aligned, s, ctx, host)
  {
    GetPlayerDataWith(Aligned, s, ctx, host)
  }

  /** `view`: the whole state, initialized or not. */
  function View(s: ImplementationData): (r: Result<ImplementationData, Error>)
    ensures r == Ok(s)
  {
    Ok(s)
  }

  /** The variant index of an error, as `derive(Reject)` numbers it. */
  function ErrorOrdinal(e: Error): byte {
    match e
    case ParseParamsError => 0
    case LogFull => 1
    case LogMalformed => 2
    case InvokeContractError => 3
    case ContractPaused => 4
    case AlreadyInitialized => 5
    case UnInitialized => 6
    case OnlyProxy => 7
    case StateInvokeError => 8
    case OnlyAdmin => 9
    case AlreadyAdded => 10
  }

  /** How a failed call to the Implementation looks to its caller. */
  function RejectOf(e: Error): (rej: Reject)
    ensures rej == DerivedReject(ErrorOrdinal(e))
  {
    DerivedReject(ErrorOrdinal(e))
  }

  // ---------------------------------------------------------------------------
  // Dispatch

  /** `StateImplementation` as `view` serializes it: the admin, then the tag of
      the addresses (0 or 1) and, when set, the proxy and state addresses. */
  function EncodeImplementationData(s: ImplementationData): Bytes {
    EncodeAddress(s.admin) +
    match s.protocolAddresses
    case UnInitialized => [0]
    case Initialized(proxy, state) => [1] + EncodeContractAddressPair(proxy, state)
  }

  function EncodeReadPlayerData(d: (PlayerState, BattleResult)): Bytes {
    [PlayerStateOrdinal(Aligned, d.0), BattleResultOrdinal(d.1)]
  }

  /** What one call to the Implementation produces: the value it returns or the
      error it rejects with, its state afterwards, its calls and its records. */
  datatype Outcome = Returned(value: Bytes) | Rejected(error: Error) | NoSuchEntrypoint

  datatype Delivery = Delivery(outcome: Outcome, post: ImplementationData, calls: seq<Invocation>, events: seq<Bytes>)

  function Deliver<T>(t: Transition<T>, encode: T -> Bytes): (d: Delivery)
    ensures d.post == t.post && d.calls == t.calls && d.events == t.events
    ensures t.result.Ok? <==> d.outcome.Returned?
    ensures t.result.Err? ==> d.outcome == Rejected(t.result.error)
  {
    Delivery(if t.result.Ok? then Returned(encode(t.result.value)) else Rejected(t.result.error), t.post, t.calls, t.events)
  }

  function NoValue(u: Unit): Bytes { [] }

  /** The entry points the source declares. */
  const ENTRYPOINTS: set<string> := {
    "initialize", "updatePlayerState", "updateBattleResult", "addPlayer",
    "updateAdmin", "pause", "unpause", "getPlayerData", "view"
  }

  /** One call to the Implementation, with the corrected `addPlayer` and
      ordinals. */
  function Receive(s: ImplementationData, entrypoint: string, ctx: ReceiveContext, host: HostReplies): (d: Delivery)
    ensures entrypoint !in ENTRYPOINTS ==> d == Delivery(NoSuchEntrypoint, s, [], [])
  {
    if entrypoint == "initialize" then Deliver(InitializeStep(s, ctx), NoValue)
    else if entrypoint == "updatePlayerState" then Deliver(UpdatePlayerStateStep(s, ctx, host), NoValue)
    else if entrypoint == "updateBattleResult" then Deliver(UpdateBattleResultStep(s, ctx, host), NoValue)
    else if entrypoint == "addPlayer" then Deliver(AddPlayerStep(s, ctx, host), NoValue)
    else if entrypoint == "updateAdmin" then Deliver(UpdateAdminStep(s, ctx), NoValue)
    else if entrypoint == "pause" then Deliver(PauseStep(s, ctx, host), NoValue)
    else if entrypoint == "unpause" then Deliver(UnpauseStep(s, ctx, host), NoValue)
    else if entrypoint == "getPlayerData" then Deliver(GetPlayerDataStep(s, ctx, host), EncodeReadPlayerData)
    else if entrypoint == "view" then Delivery(Returned(EncodeImplementationData(s)), s, [], [])
    else Delivery(NoSuchEntrypoint, s, [], [])
  }

  // ---------------------------------------------------------------------------
  // Properties of the entry points

  /** `initialize` succeeds at most once. */
  lemma InitializeOnce(s: ImplementationData, first: ReceiveContext, second: ReceiveContext)
    requires InitializeStep(s, first).result.Ok?
    ensures var post := InitializeStep(s, first).post;
      InitializeStep(post, second) == Transition(Err(AlreadyInitialized), post, [], [])
  {
  }

  /** After `initialize(proxy, state)`, the address helper returns that pair. */
  lemma AddressesAfterInitialize(s: ImplementationData, proxy: ContractAddress, state: ContractAddress, ctx: ReceiveContext)
    requires s.protocolAddresses.UnInitialized?
    requires ctx.parameter == EncodeContractAddressPair(proxy, state)
    ensures InitializeStep(s, ctx).result.Ok?
    ensures GetProtocolAddresses(InitializeStep(s, ctx).post) == Ok((proxy, state))
  {
    ContractAddressPairRoundTrip(proxy, state, []);
    assert EncodeContractAddressPair(proxy, state) + [] == ctx.parameter;
  }

  /** Admin rotation: after `updateAdmin(A)` from the admin, A is the admin, the
      old admin is refused, and A can hand the role on again. */
  lemma AdminRotation(s: ImplementationData, ctx: ReceiveContext, newAdmin: Address, next: ReceiveContext, further: Address, host: HostReplies)
    requires ctx.sender == s.admin && ctx.parameter == EncodeAddress(newAdmin)
    requires next.sender == s.admin && s.admin != newAdmin
    ensures var t := UpdateAdminStep(s, ctx);
      && t.result.Ok? && t.post.admin == newAdmin
      && t.post.protocolAddresses == s.protocolAddresses
      && t.events == [Events.Serialize(Events.NewAdmin(newAdmin))]
      && UpdateAdminStep(t.post, next).result == Err(OnlyAdmin)
      && PauseStep(t.post, next, host).result == Err(OnlyAdmin)
      && UpdateAdminStep(t.post, ctx.(sender := newAdmin, parameter := EncodeAddress(further))).result.Ok?
  {
    AddressRoundTrip(newAdmin, []);
    assert EncodeAddress(newAdmin) + [] == ctx.parameter;
    AddressRoundTrip(further, []);
    assert EncodeAddress(further) + [] == EncodeAddress(further);
  }

  /** A business entry point reaches the State only after all three guards
      pass: every one of its mutating calls comes after a `getPaused` read that
      answered false, from a Proxy sender, on an initialized Implementation. */
  const BUSINESS: set<string> := {"updatePlayerState", "updateBattleResult", "addPlayer"}

  lemma BusinessNeedsGuards(s: ImplementationData, entrypoint: string, ctx: ReceiveContext, host: HostReplies)
    requires entrypoint in BUSINESS
    ensures var d := Receive(s, entrypoint, ctx, host);
      d.post == s && d.events == [] &&
      (Mutating(d.calls) != [] || d.outcome.Returned? ==>
        && s.protocolAddresses.Initialized?
        && ctx.sender == Contract(s.protocolAddresses.proxyAddress)
        && d.calls[0] == PausedQuery(s.protocolAddresses.stateAddress)
        && WhenNotPaused(host(d.calls[0])).Ok?)
  {
  }

  /** A `getPaused` that answers true stops every business entry point with
      ContractPaused, after that one read and nothing else. */
  lemma PausedBlocksBusiness(s: ImplementationData, entrypoint: string, ctx: ReceiveContext, host: HostReplies)
    requires entrypoint in BUSINESS
    requires s.protocolAddresses.Initialized? && ctx.sender == Contract(s.protocolAddresses.proxyAddress)
    requires host(PausedQuery(s.protocolAddresses.stateAddress)) == Invoked(Some(EncodeBool(true)))
    ensures Receive(s, entrypoint, ctx, host) ==
      Delivery(Rejected(ContractPaused), s, [PausedQuery(s.protocolAddresses.stateAddress)], [])
  {
  }

  /** The addresses, once set, are never changed by any entry point. */
  lemma ReceiveKeepsAddresses(s: ImplementationData, entrypoint: string, ctx: ReceiveContext, host: HostReplies)
    requires s.protocolAddresses.Initialized?
    ensures Receive(s, entrypoint, ctx, host).post.protocolAddresses == s.protocolAddresses
  {
  }

  /** Every entry point makes its reads before its one mutating call. */
  lemma ReceiveReadsFirst(s: ImplementationData, entrypoint: string, ctx: ReceiveContext, host: HostReplies)
    ensures ReadsFirst(Receive(s, entrypoint, ctx, host).calls)
  {
  }

  /** One call as the host delivers it, with the replies its calls get. */
  datatype Call = Call(entrypoint: string, ctx: ReceiveContext, host: HostReplies)

  function Run(s: ImplementationData, calls: seq<Call>): ImplementationData
    decreases |calls|
  {
    if calls == [] then s else Run(Receive(s, calls[0].entrypoint, calls[0].ctx, calls[0].host).post, calls[1..])
  }

  /** Once initialized, the Implementation keeps its Proxy and State addresses
      whatever calls follow. */
  lemma {:induction false} AddressesArePermanent(s: ImplementationData, calls: seq<Call>)
    requires s.protocolAddresses.Initialized?
    ensures Run(s, calls).protocolAddresses == s.protocolAddresses
    decreases |calls|
  {
    if calls != [] {
      ReceiveKeepsAddresses(s, calls[0].entrypoint, calls[0].ctx, calls[0].host);
      AddressesArePermanent(Receive(s, calls[0].entrypoint, calls[0].ctx, calls[0].host).post, calls[1..]);
    }
  }

  /** Only the admin changes the admin. */
  lemma AdminChangesOnlyByAdmin(s: ImplementationData, entrypoint: string, ctx: ReceiveContext, host: HostReplies)
    requires Receive(s, entrypoint, ctx, host).post.admin != s.admin
    ensures entrypoint == "updateAdmin" && ctx.sender == s.admin
    ensures Receive(s, entrypoint, ctx, host).events == [Events.Serialize(Events.NewAdmin(Receive(s, entrypoint, ctx, host).post.admin))]
  {
  }

  /** The `addPlayer` guard as written lets through exactly the players the
      State reports as added, and stops the ones it reports as new; the
      corrected guard does the opposite. */
  lemma AddPlayerGuardAsWritten(s: ImplementationData, ctx: ReceiveContext, host: HostReplies)
    requires BusinessGuards(s, ctx, host).0.Ok? && Get(DecodeAddress(ctx.parameter)).Some?
    ensures var state := BusinessGuards(s, ctx, host).0.value;
      var q := IsAddedQuery(state, Get(DecodeAddress(ctx.parameter)).value);
      && (host(q) == Invoked(Some(EncodeBool(false))) ==>
            AddPlayerAsWritten(s, ctx, host).result == Err(AlreadyAdded) &&
            Mutating(AddPlayerAsWritten(s, ctx, host).calls) == [])
      && (host(q) == Invoked(Some(EncodeBool(true))) ==>
            AddPlayerStep(s, ctx, host).result == Err(AlreadyAdded) &&
            Mutating(AddPlayerStep(s, ctx, host).calls) == [])
  {
  }

  // ---------------------------------------------------------------------------
  // The contract as an object updated in place

  class Implementation {
    var admin: Address
    var protocolAddresses: ProtocolAddresses

    function Data(): ImplementationData
      reads this
    {
      ImplementationData(admin, protocolAddresses)
    }

    /** `contract_init`, logging through `link`. */
    constructor (ctx: InitContext, link: Link)
      modifies link
      ensures Data() == Init(ctx).0
      ensures link.events == old(link.events) + Init(ctx).1 && link.calls == old(link.calls)
    {
      admin := Account(ctx.initOrigin);
      protocolAddresses := ProtocolAddresses.UnInitialized;
      new;
      link.Log(Events.Serialize(Events.NewAdmin(Account(ctx.initOrigin))));
    }

    method Initialize(ctx: ReceiveContext) returns (r: Result<Unit, Error>)
      modifies this
      ensures Transition(r, Data(), [], []) == InitializeStep(old(Data()), ctx)
    {
      if protocolAddresses != ProtocolAddresses.UnInitialized {
        return Err(AlreadyInitialized);
      }
      var params := DecodeContractAddressPair(ctx.parameter);
      if params.None? {
        return Err(ParseParamsError);
      }
      protocolAddresses := Initialized(params.value.0, params.value.1);
      return Ok(Unit);
    }

    /** A read-only call whose reply is decoded by `decode`. */
    method Read<T>(call: Invocation, decode: Bytes -> Option<T>, link: Link) returns (r: Result<T, Error>)
      modifies link
      ensures r == ReadReply(link.replies(call), decode)
      ensures link.calls == old(link.calls) + [call] && link.events == old(link.events)
    {
      var reply := link.Invoke(call);
      if reply.CallFailed? {
        return Err(InvokeContractError);
      }
      if reply.returnValue.None? {
        return Err(StateInvokeError);
      }
      var value := decode(reply.returnValue.value);
      if value.None? {
        return Err(ParseParamsError);
      }
      return Ok(value.value);
    }

    /** A mutating call to the State. */
    method Send(state: ContractAddress, entrypoint: string, parameter: Bytes, link: Link) returns (r: Result<Unit, Error>)
      modifies link
      ensures (r, link.calls) == (Forward(state, entrypoint, parameter, link.replies).0, old(link.calls) + [Forward(state, entrypoint, parameter, link.replies).1])
      ensures link.events == old(link.events)
    {
      var reply := link.Invoke(Invocation(state, entrypoint, parameter, 0, false));
      if reply.CallFailed? {
        return Err(InvokeContractError);
      }
      return Ok(Unit);
    }

    /** Initialized, sent by the Proxy, not paused; yields the State's address. */
    method CheckBusiness(ctx: ReceiveContext, link: Link) returns (r: Result<ContractAddress, Error>)
      modifies link
      ensures r == BusinessGuards(Data(), ctx, link.replies).0
      ensures link.calls == old(link.calls) + BusinessGuards(Data(), ctx, link.replies).1
      ensures link.events == old(link.events)
    {
      if protocolAddresses.UnInitialized? {
        return Err(Error.UnInitialized);
      }
      var proxy, state := protocolAddresses.proxyAddress, protocolAddresses.stateAddress;
      if !MatchesContract(ctx.sender, proxy) {
        return Err(OnlyProxy);
      }
      var paused := Read(PausedQuery(state), DecodeFlag, link);
      if paused.Err? {
        return Err(paused.error);
      }
      if paused.value {
        return Err(ContractPaused);
      }
      return Ok(state);
    }

    method UpdatePlayerState(ctx: ReceiveContext, link: Link) returns (r: Result<Unit, Error>)
      modifies link
      ensures var t := UpdatePlayerStateStep(Data(), ctx, link.replies);
        r == t.result && link.calls == old(link.calls) + t.calls && link.events == old(link.events)
    {
      var state := CheckBusiness(ctx, link);
      if state.Err? {
        return Err(state.error);
      }
      var params := DecodeUpdatePlayerStateParams(Aligned, ctx.parameter);
      if params.None? {
        return Err(ParseParamsError);
      }
      var (player, playerState) := params.value;
      r := Send(state.value, "updatePlayerState", EncodeUpdatePlayerStateParams(Aligned, player, playerState), link);
    }

    method UpdateBattleResult(ctx: ReceiveContext, link: Link) returns (r: Result<Unit, Error>)
      modifies link
      ensures var t := UpdateBattleResultStep(Data(), ctx, link.replies);
        r == t.result && link.calls == old(link.calls) + t.calls && link.events == old(link.events)
    {
      var state := CheckBusiness(ctx, link);
      if state.Err? {
        return Err(state.error);
      }
      var params := DecodeUpdateBattleResultParams(ctx.parameter);
      if params.None? {
        return Err(ParseParamsError);
      }
      var (player, result) := params.value;
      r := Send(state.value, "updateBattleResult", EncodeUpdateBattleResultParams(player, result), link);
    }

    method AddPlayer(ctx: ReceiveContext, link: Link) returns (r: Result<Unit, Error>)
      modifies link
      ensures var t := AddPlayerStep(Data(), ctx, link.replies);
        r == t.result && link.calls == old(link.calls) + t.calls && link.events == old(link.events)
    {
      var state := CheckBusiness(ctx, link);
      if state.Err? {
        return Err(state.error);
      }
      var player := Get(DecodeAddress(ctx.parameter));
      if player.None? {
        return Err(ParseParamsError);
      }
      var added := Read(IsAddedQuery(state.value, player.value), DecodeFlag, link);
      if added.Err? {
        return Err(added.error);
      }
      if added.value {
        return Err(AlreadyAdded);
      }
      r := Send(state.value, "addPlayer", EncodeAddress(player.value), link);
    }

    method UpdateAdmin(ctx: ReceiveContext, link: Link) returns (r: Result<Unit, Error>)
      modifies this, link
      ensures var t := UpdateAdminStep(old(Data()), ctx);
        r == t.result && Data() == t.post && link.calls == old(link.calls) && link.events == old(link.events) + t.events
    {
      if ctx.sender != admin {
        return Err(OnlyAdmin);
      }
      var newAdmin := Get(DecodeAddress(ctx.parameter));
      if newAdmin.None? {
        return Err(ParseParamsError);
      }
      admin := newAdmin.value;
      link.Log(Events.Serialize(Events.NewAdmin(newAdmin.value)));
      return Ok(Unit);
    }

    /** `pause` when `paused` is true, `unpause` when it is false. */
    method SetPaused(paused: bool, ctx: ReceiveContext, link: Link) returns (r: Result<Unit, Error>)
      modifies link
      ensures var t := SetPausedWith(Data(), ctx, link.replies, paused);
        r == t.result && link.calls == old(link.calls) + t.calls && link.events == old(link.events)
    {
      if ctx.sender != admin {
        return Err(OnlyAdmin);
      }
      if protocolAddresses.UnInitialized? {
        return Err(Error.UnInitialized);
      }
      r := Send(protocolAddresses.stateAddress, "setPaused", EncodeBool(paused), link);
    }

    method GetPlayerData(ctx: ReceiveContext, link: Link) returns (r: Result<(PlayerState, BattleResult), Error>)
      modifies link
      ensures var t := GetPlayerDataStep(Data(), ctx, link.replies);
        r == t.result && link.calls == old(link.calls) + t.calls && link.events == old(link.events)
    {
      var player := Get(DecodeAddress(ctx.parameter));
      if player.None? {
        return Err(ParseParamsError);
      }
      if protocolAddresses.UnInitialized? {
        return Err(Error.UnInitialized);
      }
      r := Read(PlayerDataQuery(protocolAddresses.stateAddress, player.value), b => DecodePlayerData(Aligned, b), link);
    }

    method ViewData() returns (r: Result<ImplementationData, Error>)
      ensures r == View(Data())
    {
      r := Ok(ImplementationData(admin, protocolAddresses));
    }
  }
}

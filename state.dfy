/** The State contract (`Versus-State`): the durable store of player records, the
    pause flag and the two addresses it trusts. Each entry point is a step function
    on `StateData` (its specification) and a method of the class `State` that
    updates the fields in place and is proved to agree with the step. */
module VersusState {
  import opened Base
  import opened Host
  import opened Encoding

  datatype PlayerState = Active | Suspended

  datatype BattleResult = NoResult | Win | Loss

  datatype PlayerData = PlayerData(state: PlayerState, result: BattleResult)

  /** The record `or_insert_with` creates for a player seen for the first time. */
  const DEFAULT_PLAYER: PlayerData := PlayerData(Active, NoResult)

  datatype ProtocolAddresses =
    | UnInitialized
    | Initialized(proxyAddress: ContractAddress, implementationAddress: ContractAddress)

  /** `CustomContractError` as declared (the `LogFull`/`LogMalformed` variants that
      its `From<LogError>` names are not declared, and the State never logs). */
  datatype Error =
    | ParseParamsError
    | InvokeContractError
    | ContractPaused
    | AlreadyInitialized
    | UnInitialized
    | OnlyImplementation
    | OnlyProxy
    | StateInvokeError

  /** The durable state of one State instance. */
  datatype StateData = StateData(
    protocolAddresses: ProtocolAddresses,
    playerData: map<Address, PlayerData>,
    paused: bool)

  /** The outcome of an entry point: its result and the state afterwards. */
  datatype Transition<T> = Transition(result: Result<T, Error>, post: StateData)

  /** The return value of `view`. */
  datatype BasicState = BasicState(proxyAddress: ContractAddress, implementationAddress: ContractAddress, paused: bool)

  // ---------------------------------------------------------------------------
  // Wire format of the State's own types

  function PlayerStateOrdinal(p: PlayerState): byte {
    match p
    case Active => 0
    case Suspended => 1
  }

  function DecodePlayerState(b: Bytes): (r: Option<(PlayerState, Bytes)>)
    ensures r.Some? <==> |b| >= 1 && b[0] <= 1
    ensures r.Some? ==> PlayerStateOrdinal(r.value.0) == b[0] && r.value.1 == b[1..]
  {
    if |b| == 0 then None
    else if b[0] == 0 then Some((Active, b[1..]))
    else if b[0] == 1 then Some((Suspended, b[1..]))
    else None
  }

  function BattleResultOrdinal(r: BattleResult): byte {
    match r
    case NoResult => 0
    case Win => 1
    case Loss => 2
  }

  function DecodeBattleResult(b: Bytes): (r: Option<(BattleResult, Bytes)>)
    ensures r.Some? <==> |b| >= 1 && b[0] <= 2
    ensures r.Some? ==> BattleResultOrdinal(r.value.0) == b[0] && r.value.1 == b[1..]
  {
    if |b| == 0 then None
    else if b[0] == 0 then Some((NoResult, b[1..]))
    else if b[0] == 1 then Some((Win, b[1..]))
    else if b[0] == 2 then Some((Loss, b[1..]))
    else None
  }

  /** `UpdatePlayerStateParams`: the player's address, then the state's ordinal. */
  function DecodeUpdatePlayerStateParams(b: Bytes): Option<(Address, PlayerState)> {
    match DecodeAddress(b)
    case None => None
    case Some((player, rest)) =>
      match DecodePlayerState(rest)
      case None => None
      case Some((state, _)) => Some((player, state))
  }

  /** `UpdateBattleResultParams`: the player's address, then the result's ordinal. */
  function DecodeUpdateBattleResultParams(b: Bytes): Option<(Address, BattleResult)> {
    match DecodeAddress(b)
    case None => None
    case Some((player, rest)) =>
      match DecodeBattleResult(rest)
      case None => None
      case Some((result, _)) => Some((player, result))
  }

  /** The return value of `getPlayerData`: the two ordinals. */
  function EncodePlayerData(d: PlayerData): (b: Bytes)
    ensures |b| == 2
  {
    [PlayerStateOrdinal(d.state), BattleResultOrdinal(d.result)]
  }

  function EncodeBasicState(v: BasicState): Bytes {
    EncodeContractAddress(v.proxyAddress) + EncodeContractAddress(v.implementationAddress) + EncodeBool(v.paused)
  }

  // ---------------------------------------------------------------------------
  // Construction and guards

  /** `State::new`: no addresses yet, no players, not paused. */
  function New(): StateData {
    StateData(ProtocolAddresses.UnInitialized, map[], false)
  }

  /** `get_protocol_addresses_from_state`: the (proxy, implementation) pair, once set. */
  function GetProtocolAddresses(s: StateData): (r: Result<(ContractAddress, ContractAddress), Error>)
    ensures r.Ok? <==> s.protocolAddresses.Initialized?
    ensures r.Err? ==> r.error == Error.UnInitialized
    ensures r.Ok? ==> r.value == (s.protocolAddresses.proxyAddress, s.protocolAddresses.implementationAddress)
  {
    match s.protocolAddresses
    case UnInitialized => Err(Error.UnInitialized)
    case Initialized(proxy, implementation) => Ok((proxy, implementation))
  }

  /** `only_implementation`. */
  function OnlyImplementationGuard(implementation: ContractAddress, sender: Address): (r: Result<Unit, Error>)
    ensures r.Ok? <==> sender == Contract(implementation)
    ensures r.Err? ==> r.error == OnlyImplementation
  {
    if MatchesContract(sender, implementation) then Ok(Unit) else Err(OnlyImplementation)
  }

  /** `only_proxy`. */
  function OnlyProxyGuard(proxy: ContractAddress, sender: Address): (r: Result<Unit, Error>)
    ensures r.Ok? <==> sender == Contract(proxy)
    ensures r.Err? ==> r.error == OnlyProxy
  {
    if MatchesContract(sender, proxy) then Ok(Unit) else Err(OnlyProxy)
  }

  /** The record of `player`, or the one `or_insert_with` would create. */
  function Record(m: map<Address, PlayerData>, player: Address): (d: PlayerData)
    ensures player in m ==> d == m[player]
    ensures player !in m ==> d == DEFAULT_PLAYER
  {
    if player in m then m[player] else DEFAULT_PLAYER
  }

  /** The guards every mutation by the Implementation passes: initialized, then
      the sender is the recorded Implementation. */
  function FromImplementation(s: StateData, sender: Address): (r: Result<Unit, Error>)
    ensures r.Ok? <==> s.protocolAddresses.Initialized? && sender == Contract(s.protocolAddresses.implementationAddress)
    ensures s.protocolAddresses.UnInitialized? ==> r == Err(Error.UnInitialized)
    ensures s.protocolAddresses.Initialized? && r.Err? ==> r.error == OnlyImplementation
  {
    match GetProtocolAddresses(s)
    case Err(e) => Err(e)
    case Ok((_, implementation)) => OnlyImplementationGuard(implementation, sender)
  }

  // ---------------------------------------------------------------------------
  // Entry points, as steps

  /** `initialize`: one-shot, with no check on the sender. */
  function InitializeStep(s: StateData, ctx: ReceiveContext): (t: Transition<Unit>)
    ensures t.result.Err? ==> t.post == s
    ensures s.protocolAddresses.Initialized? ==> t.result == Err(AlreadyInitialized)
    ensures t.result.Ok? <==> s.protocolAddresses.UnInitialized? && DecodeContractAddressPair(ctx.parameter).Some?
    ensures t.result.Ok? ==>
      var (proxy, implementation) := DecodeContractAddressPair(ctx.parameter).value;
      t.post == s.(protocolAddresses := Initialized(proxy, implementation))
  {
    if s.protocolAddresses != ProtocolAddresses.UnInitialized then Transition(Err(AlreadyInitialized), s)
    else
      match DecodeContractAddressPair(ctx.parameter)
      case None => Transition(Err(ParseParamsError), s)
      case Some((proxy, implementation)) =>
        Transition(Ok(Unit), s.(protocolAddresses := Initialized(proxy, implementation)))
  }

  /** `setImplementationAddress`: only the recorded Proxy; keeps the proxy half. */
  function SetImplementationAddressStep(s: StateData, ctx: ReceiveContext): (t: Transition<Unit>)
    ensures t.result.Err? ==> t.post == s
    ensures s.protocolAddresses.UnInitialized? ==> t.result == Err(Error.UnInitialized)
    ensures s.protocolAddresses.Initialized? && ctx.sender != Contract(s.protocolAddresses.proxyAddress) ==>
      t.result == Err(OnlyProxy)
    ensures t.result.Ok? <==>
      s.protocolAddresses.Initialized? && ctx.sender == Contract(s.protocolAddresses.proxyAddress) &&
      Get(DecodeContractAddress(ctx.parameter)).Some?
    ensures t.result.Ok? ==>
      t.post == s.(protocolAddresses := s.protocolAddresses.(implementationAddress := Get(DecodeContractAddress(ctx.parameter)).value))
  {
    match GetProtocolAddresses(s)
    case Err(e) => Transition(Err(e), s)
    case Ok((proxy, _)) =>
      match OnlyProxyGuard(proxy, ctx.sender)
      case Err(e) => Transition(Err(e), s)
      case Ok(_) =>
        match Get(DecodeContractAddress(ctx.parameter))
        case None => Transition(Err(ParseParamsError), s)
        case Some(implementation) => Transition(Ok(Unit), s.(protocolAddresses := Initialized(proxy, implementation)))
  }

  /** `setPaused`: only the recorded Implementation; writes the flag and nothing else. */
  function SetPausedStep(s: StateData, ctx: ReceiveContext): (t: Transition<Unit>)
    ensures t.result.Err? ==> t.post == s
    ensures FromImplementation(s, ctx.sender).Err? ==> t.result == Err(FromImplementation(s, ctx.sender).error)
    ensures t.result.Ok? <==> FromImplementation(s, ctx.sender).Ok? && Get(DecodeBool(ctx.parameter)).Some?
    ensures t.result.Ok? ==> t.post == s.(paused := ctx.parameter[0] == 1)
  {
    match FromImplementation(s, ctx.sender)
    case Err(e) => Transition(Err(e), s)
    case Ok(_) =>
      match Get(DecodeBool(ctx.parameter))
      case None => Transition(Err(ParseParamsError), s)
      case Some(paused) => Transition(Ok(Unit), s.(paused := paused))
  }

  /** `updatePlayerState`: get-or-create the record, then overwrite its state only. */
  function UpdatePlayerStateStep(s: StateData, ctx: ReceiveContext): (t: Transition<Unit>)
    ensures t.result.Err? ==> t.post == s
    ensures FromImplementation(s, ctx.sender).Err? ==> t.result == Err(FromImplementation(s, ctx.sender).error)
    ensures t.result.Ok? <==> FromImplementation(s, ctx.sender).Ok? && DecodeUpdatePlayerStateParams(ctx.parameter).Some?
    ensures t.result.Ok? ==>
      var (player, state) := DecodeUpdatePlayerStateParams(ctx.parameter).value;
      && t.post.protocolAddresses == s.protocolAddresses && t.post.paused == s.paused
      && t.post.playerData.Keys == s.playerData.Keys + {player}
      && t.post.playerData[player] == PlayerData(state, Record(s.playerData, player).result)
      && (forall q :: q in s.playerData && q != player ==> t.post.playerData[q] == s.playerData[q])
  {
    match FromImplementation(s, ctx.sender)
    case Err(e) => Transition(Err(e), s)
    case Ok(_) =>
      match DecodeUpdatePlayerStateParams(ctx.parameter)
      case None => Transition(Err(ParseParamsError), s)
      case Some((player, state)) =>
        var record := Record(s.playerData, player);
        Transition(Ok(Unit), s.(playerData := s.playerData[player := record.(state := state)]))
  }

  /** `updateBattleResult`: get-or-create the record, then overwrite its result only. */
  function UpdateBattleResultStep(s: StateData, ctx: ReceiveContext): (t: Transition<Unit>)
    ensures t.result.Err? ==> t.post == s
    ensures FromImplementation(s, ctx.sender).Err? ==> t.result == Err(FromImplementation(s, ctx.sender).error)
    ensures t.result.Ok? <==> FromImplementation(s, ctx.sender).Ok? && DecodeUpdateBattleResultParams(ctx.parameter).Some?
    ensures t.result.Ok? ==>
      var (player, result) := DecodeUpdateBattleResultParams(ctx.parameter).value;
      && t.post.protocolAddresses == s.protocolAddresses && t.post.paused == s.paused
      && t.post.playerData.Keys == s.playerData.Keys + {player}
      && t.post.playerData[player] == PlayerData(Record(s.playerData, player).state, result)
      && (forall q :: q in s.playerData && q != player ==> t.post.playerData[q] == s.playerData[q])
  {
    match FromImplementation(s, ctx.sender)
    case Err(e) => Transition(Err(e), s)
    case Ok(_) =>
      match DecodeUpdateBattleResultParams(ctx.parameter)
      case None => Transition(Err(ParseParamsError), s)
      case Some((player, result)) =>
        var record := Record(s.playerData, player);
        Transition(Ok(Unit), s.(playerData := s.playerData[player := record.(result := result)]))
  }

  /** `addPlayer`: creates the default record when the player has none, and
      leaves an existing record as it is. */
  function AddPlayerStep(s: StateData, ctx: ReceiveContext): (t: Transition<Unit>)
    ensures t.result.Err? ==> t.post == s
    ensures FromImplementation(s, ctx.sender).Err? ==> t.result == Err(FromImplementation(s, ctx.sender).error)
    ensures t.result.Ok? <==> FromImplementation(s, ctx.sender).Ok? && Get(DecodeAddress(ctx.parameter)).Some?
    ensures t.result.Ok? ==>
      var player := Get(DecodeAddress(ctx.parameter)).value;
      && t.post.protocolAddresses == s.protocolAddresses && t.post.paused == s.paused
      && t.post.playerData.Keys == s.playerData.Keys + {player}
      && (player !in s.playerData ==> t.post.playerData[player] == DEFAULT_PLAYER)
      && (forall q :: q in s.playerData ==> t.post.playerData[q] == s.playerData[q])
  {
    match FromImplementation(s, ctx.sender)
    case Err(e) => Transition(Err(e), s)
    case Ok(_) =>
      match Get(DecodeAddress(ctx.parameter))
      case None => Transition(Err(ParseParamsError), s)
      case Some(player) => Transition(Ok(Unit), s.(playerData := s.playerData[player := Record(s.playerData, player)]))
  }

  /** `getPlayerData`: the player's record, read with no guard. A player with no
      record has not been added, and the call rejects with StateInvokeError. */
  function GetPlayerData(s: StateData, ctx: ReceiveContext): (r: Result<PlayerData, Error>)
    ensures Get(DecodeAddress(ctx.parameter)).None? ==> r == Err(ParseParamsError)
    ensures r.Ok? <==> Get(DecodeAddress(ctx.parameter)).Some? && Get(DecodeAddress(ctx.parameter)).value in s.playerData
    ensures r.Ok? ==> r.value == s.playerData[Get(DecodeAddress(ctx.parameter)).value]
    ensures Get(DecodeAddress(ctx.parameter)).Some? && Get(DecodeAddress(ctx.parameter)).value !in s.playerData ==>
      r == Err(StateInvokeError)
  {
    match Get(DecodeAddress(ctx.parameter))
    case None => Err(ParseParamsError)
    case Some(player) => if player in s.playerData then Ok(s.playerData[player]) else Err(StateInvokeError)
  }

  /** `view`: both addresses and the flag, once initialized. */
  function View(s: StateData): (r: Result<BasicState, Error>)
    ensures r.Err? <==> s.protocolAddresses.UnInitialized?
    ensures r.Err? ==> r.error == Error.UnInitialized
    ensures r.Ok? ==>
      r.value == BasicState(s.protocolAddresses.proxyAddress, s.protocolAddresses.implementationAddress, s.paused)
  {
    match GetProtocolAddresses(s)
    case Err(e) => Err(e)
    case Ok((proxy, implementation)) => Ok(BasicState(proxy, implementation, s.paused))
  }

  /** `isAdded`, the entry point the Implementation calls and the source does not
      define: whether the player has a record. */
  function IsAdded(s: StateData, ctx: ReceiveContext): (r: Result<bool, Error>)
    ensures r.Ok? <==> Get(DecodeAddress(ctx.parameter)).Some?
    ensures r.Err? ==> r.error == ParseParamsError
    ensures r.Ok? ==> (r.value <==> Get(DecodeAddress(ctx.parameter)).value in s.playerData)
  {
    match Get(DecodeAddress(ctx.parameter))
    case None => Err(ParseParamsError)
    case Some(player) => Ok(player in s.playerData)
  }

  // ---------------------------------------------------------------------------
  // The entry-point table

  /** What the host observes of one call to the State. */
  datatype Outcome = Returned(value: Bytes) | Rejected(error: Error) | NoSuchEntrypoint

  /** The entry points the source declares. */
  const ENTRYPOINTS: set<string> := {
    "initialize", "setImplementationAddress", "setPaused", "updatePlayerState",
    "updateBattleResult", "addPlayer", "getPaused", "getPlayerData", "view"
  }

  function UnitOutcome(t: Transition<Unit>): (Outcome, StateData) {
    (if t.result.Ok? then Returned([]) else Rejected(t.result.error), t.post)
  }

  function ValueOutcome<T>(r: Result<T, Error>, encode: T -> Bytes): Outcome {
    if r.Ok? then Returned(encode(r.value)) else Rejected(r.error)
  }

  /** One call to the State with the `isAdded` entry point it evidently needs. */
  function Receive(s: StateData, entrypoint: string, ctx: ReceiveContext): (Outcome, StateData) {
    if entrypoint == "initialize" then UnitOutcome(InitializeStep(s, ctx))
    else if entrypoint == "setImplementationAddress" then UnitOutcome(SetImplementationAddressStep(s, ctx))
    else if entrypoint == "setPaused" then UnitOutcome(SetPausedStep(s, ctx))
    else if entrypoint == "updatePlayerState" then UnitOutcome(UpdatePlayerStateStep(s, ctx))
    else if entrypoint == "updateBattleResult" then UnitOutcome(UpdateBattleResultStep(s, ctx))
    else if entrypoint == "addPlayer" then UnitOutcome(AddPlayerStep(s, ctx))
    else if entrypoint == "getPaused" then (Returned(EncodeBool(s.paused)), s)
    else if entrypoint == "getPlayerData" then (ValueOutcome(GetPlayerData(s, ctx), EncodePlayerData), s)
    else if entrypoint == "view" then (ValueOutcome(View(s), EncodeBasicState), s)
    else if entrypoint == "isAdded" then (ValueOutcome(IsAdded(s, ctx), EncodeBool), s)
    else (NoSuchEntrypoint, s)
  }

  /** One call to the State as the source declares it: there is no `isAdded`. */
  function ReceiveAsWritten(s: StateData, entrypoint: string, ctx: ReceiveContext): (o: (Outcome, StateData))
    ensures entrypoint !in ENTRYPOINTS ==> o == (NoSuchEntrypoint, s)
    ensures entrypoint in ENTRYPOINTS ==> o == Receive(s, entrypoint, ctx)
  {
    if entrypoint in ENTRYPOINTS then Receive(s, entrypoint, ctx) else (NoSuchEntrypoint, s)
  }

  /** The variant index of an error, as `derive(Reject)` numbers it. */
  function ErrorOrdinal(e: Error): byte {
    match e
    case ParseParamsError => 0
    case InvokeContractError => 1
    case ContractPaused => 2
    case AlreadyInitialized => 3
    case UnInitialized => 4
    case OnlyImplementation => 5
    case OnlyProxy => 6
    case StateInvokeError => 7
  }

  /** How a failed call to the State looks to its caller. */
  function RejectOf(e: Error): (rej: Reject)
    ensures rej == DerivedReject(ErrorOrdinal(e))
  {
    DerivedReject(ErrorOrdinal(e))
  }

  // ---------------------------------------------------------------------------
  // Properties of the entry points

  /** `initialize` succeeds at most once: after it has, every later call fails
      with AlreadyInitialized and changes nothing. */
  lemma InitializeOnce(s: StateData, first: ReceiveContext, second: ReceiveContext)
    requires InitializeStep(s, first).result.Ok?
    ensures var post := InitializeStep(s, first).post;
      InitializeStep(post, second) == Transition(Err(AlreadyInitialized), post)
  {
  }

  /** Nothing but the one-shot flag guards `initialize`: whoever calls first sets
      the addresses, whatever account or contract it is. */
  lemma InitializeFromAnySender(s: StateData, ctx: ReceiveContext, sender: Address)
    ensures InitializeStep(s, ctx.(sender := sender)) == InitializeStep(s, ctx)
  {
  }

  /** After `initialize`, the address helper returns exactly the pair passed in. */
  lemma AddressesAfterInitialize(s: StateData, proxy: ContractAddress, implementation: ContractAddress, ctx: ReceiveContext)
    requires s.protocolAddresses.UnInitialized?
    requires ctx.parameter == EncodeContractAddressPair(proxy, implementation)
    ensures InitializeStep(s, ctx).result.Ok?
    ensures GetProtocolAddresses(InitializeStep(s, ctx).post) == Ok((proxy, implementation))
  {
    ContractAddressPairRoundTrip(proxy, implementation, []);
    assert EncodeContractAddressPair(proxy, implementation) + [] == ctx.parameter;
  }

  /** `updatePlayerState(P, st)` followed by `getPlayerData(P)` reads back `st`
      with P's earlier battle result. */
  lemma UpdateThenGetPlayerData(s: StateData, ctx: ReceiveContext, query: ReceiveContext)
    requires UpdatePlayerStateStep(s, ctx).result.Ok?
    requires Get(DecodeAddress(query.parameter)) == Some(DecodeUpdatePlayerStateParams(ctx.parameter).value.0)
    ensures var (player, state) := DecodeUpdatePlayerStateParams(ctx.parameter).value;
      GetPlayerData(UpdatePlayerStateStep(s, ctx).post, query) == Ok(PlayerData(state, Record(s.playerData, player).result))
  {
  }

  /** `addPlayer` twice is `addPlayer` once. */
  lemma AddPlayerIdempotent(s: StateData, ctx: ReceiveContext, again: ReceiveContext)
    requires AddPlayerStep(s, ctx).result.Ok?
    requires again.sender == ctx.sender && again.parameter == ctx.parameter
    ensures var post := AddPlayerStep(s, ctx).post;
      AddPlayerStep(post, again) == Transition(Ok(Unit), post)
  {
    var post := AddPlayerStep(s, ctx).post;
    var player := Get(DecodeAddress(ctx.parameter)).value;
    assert post.playerData[player := Record(post.playerData, player)] == post.playerData;
  }

  /** The mutations the Implementation makes: any other sender is refused and
      nothing changes. */
  const IMPLEMENTATION_ONLY: set<string> := {"setPaused", "updatePlayerState", "updateBattleResult", "addPlayer"}

  lemma MutationsRequireImplementation(s: StateData, entrypoint: string, ctx: ReceiveContext)
    requires entrypoint in IMPLEMENTATION_ONLY
    requires s.protocolAddresses.Initialized?
    requires ctx.sender != Contract(s.protocolAddresses.implementationAddress)
    ensures Receive(s, entrypoint, ctx) == (Rejected(OnlyImplementation), s)
  {
  }

  lemma ImplementationAddressRequiresProxy(s: StateData, ctx: ReceiveContext)
    requires s.protocolAddresses.Initialized?
    requires ctx.sender != Contract(s.protocolAddresses.proxyAddress)
    ensures Receive(s, "setImplementationAddress", ctx) == (Rejected(OnlyProxy), s)
  {
  }

  /** Before `initialize`, every entry point that needs the addresses fails with
      UnInitialized; `getPaused` and `getPlayerData` still answer for a player
      with a record. */
  lemma BeforeInitialize(s: StateData, entrypoint: string, ctx: ReceiveContext)
    requires s.protocolAddresses.UnInitialized?
    requires entrypoint in IMPLEMENTATION_ONLY + {"setImplementationAddress", "view"}
    ensures Receive(s, entrypoint, ctx) == (Rejected(Error.UnInitialized), s)
    ensures Receive(s, "getPaused", ctx) == (Returned(EncodeBool(s.paused)), s)
    ensures Get(DecodeAddress(ctx.parameter)).Some? && Get(DecodeAddress(ctx.parameter)).value in s.playerData ==>
      Receive(s, "getPlayerData", ctx) == (Returned(EncodePlayerData(s.playerData[Get(DecodeAddress(ctx.parameter)).value])), s)
  {
  }

  /** One call as the host delivers it. */
  datatype Call = Call(entrypoint: string, ctx: ReceiveContext)

  /** The state after a sequence of calls. */
  function Run(s: StateData, calls: seq<Call>): StateData
    decreases |calls|
  {
    if calls == [] then s else Run(Receive(s, calls[0].entrypoint, calls[0].ctx).1, calls[1..])
  }

  lemma ReceiveKeepsProxyAndRecords(s: StateData, entrypoint: string, ctx: ReceiveContext)
    requires s.protocolAddresses.Initialized?
    ensures var post := Receive(s, entrypoint, ctx).1;
      post.protocolAddresses.Initialized? &&
      post.protocolAddresses.proxyAddress == s.protocolAddresses.proxyAddress &&
      s.playerData.Keys <= post.playerData.Keys
  {
  }

  /** Once initialized, a State stays initialized with the same Proxy, and no
      player record is ever removed, whatever calls follow. */
  lemma {:induction false} InitializedIsPermanent(s: StateData, calls: seq<Call>)
    requires s.protocolAddresses.Initialized?
    ensures Run(s, calls).protocolAddresses.Initialized?
    ensures Run(s, calls).protocolAddresses.proxyAddress == s.protocolAddresses.proxyAddress
    ensures s.playerData.Keys <= Run(s, calls).playerData.Keys
    decreases |calls|
  {
    if calls != [] {
      var next := Receive(s, calls[0].entrypoint, calls[0].ctx).1;
      ReceiveKeepsProxyAndRecords(s, calls[0].entrypoint, calls[0].ctx);
      InitializedIsPermanent(next, calls[1..]);
    }
  }

  /** A sender that is neither the recorded Proxy nor the recorded Implementation. */
  predicate Outsider(s: StateData, sender: Address)
    requires s.protocolAddresses.Initialized?
  {
    sender != Contract(s.protocolAddresses.proxyAddress) &&
    sender != Contract(s.protocolAddresses.implementationAddress)
  }

  lemma OutsiderChangesNothing(s: StateData, entrypoint: string, ctx: ReceiveContext)
    requires s.protocolAddresses.Initialized? && Outsider(s, ctx.sender)
    ensures Receive(s, entrypoint, ctx).1 == s
  {
  }

  /** Once initialized, no sequence of calls from outsiders changes anything. */
  lemma {:induction false} OutsidersChangeNothing(s: StateData, calls: seq<Call>)
    requires s.protocolAddresses.Initialized?
    requires forall i :: 0 <= i < |calls| ==> Outsider(s, calls[i].ctx.sender)
    ensures Run(s, calls) == s
    decreases |calls|
  {
    if calls != [] {
      OutsiderChangesNothing(s, calls[0].entrypoint, calls[0].ctx);
      OutsidersChangeNothing(s, calls[1..]);
    }
  }

  // ---------------------------------------------------------------------------
  // The contract as an object updated in place

  class State {
    var protocolAddresses: ProtocolAddresses
    var playerData: map<Address, PlayerData>
    var paused: bool

    function Data(): StateData
      reads this
    {
      StateData(protocolAddresses, playerData, paused)
    }

    /** `contract_state_init`. */
    constructor ()
      ensures Data() == New()
      ensures protocolAddresses.UnInitialized? && playerData == map[] && !paused
    {
      protocolAddresses := ProtocolAddresses.UnInitialized;
      playerData := map[];
      paused := false;
    }

    method Initialize(ctx: ReceiveContext) returns (r: Result<Unit, Error>)
      modifies this
      ensures Transition(r, Data()) == InitializeStep(old(Data()), ctx)
    {
      if protocolAddresses != ProtocolAddresses.UnInitialized {
        return Err(AlreadyInitialized);
      }
      var params := DecodeContractAddressPair(ctx.parameter);
      if params.None? {
        return Err(ParseParamsError);
      }
      protocolAddresses := Initialized(params.value.0, params.value.1);
      return Ok(Unit);
    }

    method SetImplementationAddress(ctx: ReceiveContext) returns (r: Result<Unit, Error>)
      modifies this
      ensures Transition(r, Data()) == SetImplementationAddressStep(old(Data()), ctx)
    {
      var addresses := GetProtocolAddresses(Data());
      if addresses.Err? {
        return Err(addresses.error);
      }
      var (proxy, _) := addresses.value;
      var guard := OnlyProxyGuard(proxy, ctx.sender);
      if guard.Err? {
        return Err(guard.error);
      }
      var params := Get(DecodeContractAddress(ctx.parameter));
      if params.None? {
        return Err(ParseParamsError);
      }
      protocolAddresses := Initialized(proxy, params.value);
      return Ok(Unit);
    }

    /** The two guards of every mutation the Implementation makes. */
    method CheckImplementation(sender: Address) returns (r: Result<Unit, Error>)
      ensures r == FromImplementation(Data(), sender)
    {
      var addresses := GetProtocolAddresses(Data());
      if addresses.Err? {
        return Err(addresses.error);
      }
      var (_, implementation) := addresses.value;
      r := OnlyImplementationGuard(implementation, sender);
    }

    method SetPaused(ctx: ReceiveContext) returns (r: Result<Unit, Error>)
      modifies this
      ensures Transition(r, Data()) == SetPausedStep(old(Data()), ctx)
    {
      var guard := CheckImplementation(ctx.sender);
      if guard.Err? {
        return guard;
      }
      var params := Get(DecodeBool(ctx.parameter));
      if params.None? {
        return Err(ParseParamsError);
      }
      paused := params.value;
      return Ok(Unit);
    }

    /** `entry(player).or_insert_with(..)`: the player's record, created if absent. */
    method Entry(player: Address) returns (record: PlayerData)
      modifies this
      ensures record == Record(old(playerData), player)
      ensures playerData == old(playerData)[player := record]
      ensures protocolAddresses == old(protocolAddresses) && paused == old(paused)
    {
      if player !in playerData {
        playerData := playerData[player := DEFAULT_PLAYER];
      }
      record := playerData[player];
    }

    method UpdatePlayerState(ctx: ReceiveContext) returns (r: Result<Unit, Error>)
      modifies this
      ensures Transition(r, Data()) == UpdatePlayerStateStep(old(Data()), ctx)
    {
      var guard := CheckImplementation(ctx.sender);
      if guard.Err? {
        return guard;
      }
      var params := DecodeUpdatePlayerStateParams(ctx.parameter);
      if params.None? {
        return Err(ParseParamsError);
      }
      var (player, state) := params.value;
      var record := Entry(player);
      playerData := playerData[player := record.(state := state)];
      return Ok(Unit);
    }

    method UpdateBattleResult(ctx: ReceiveContext) returns (r: Result<Unit, Error>)
      modifies this
      ensures Transition(r, Data()) == UpdateBattleResultStep(old(Data()), ctx)
    {
      var guard := CheckImplementation(ctx.sender);
      if guard.Err? {
        return guard;
      }
      var params := DecodeUpdateBattleResultParams(ctx.parameter);
      if params.None? {
        return Err(ParseParamsError);
      }
      var (player, result) := params.value;
      var record := Entry(player);
      playerData := playerData[player := record.(result := result)];
      return Ok(Unit);
    }

    method AddPlayer(ctx: ReceiveContext) returns (r: Result<Unit, Error>)
      modifies this
      ensures Transition(r, Data()) == AddPlayerStep(old(Data()), ctx)
    {
      var guard := CheckImplementation(ctx.sender);
      if guard.Err? {
        return guard;
      }
      var params := Get(DecodeAddress(ctx.parameter));
      if params.None? {
        return Err(ParseParamsError);
      }
      var _ := Entry(params.value);
      return Ok(Unit);
    }

    /** `getPaused`: the stored flag, initialized or not. */
    method GetPaused() returns (p: bool)
      ensures p == paused
    {
      p := paused;
    }

    method GetPlayerDataOf(ctx: ReceiveContext) returns (r: Result<PlayerData, Error>)
      ensures r == GetPlayerData(Data(), ctx)
    {
      var params := Get(DecodeAddress(ctx.parameter));
      if params.None? {
        return Err(ParseParamsError);
      }
      var player := params.value;
      if player in playerData {
        r := Ok(playerData[player]);
      } else {
        r := Err(StateInvokeError);
      }
    }

    method ViewState() returns (r: Result<BasicState, Error>)
      ensures r == View(Data())
    {
      var addresses := GetProtocolAddresses(Data());
      if addresses.Err? {
        return Err(addresses.error);
      }
      var (proxy, implementation) := addresses.value;
      r := Ok(BasicState(proxy, implementation, paused));
    }
  }
}

/** The three contracts wired together: the replies each contract gets are
    computed by the contract it calls. A contract's entry point makes its reads
    before its only write (proved below for the Implementation), so the replies
    can all be taken from the callee's state before the call. */
module Protocol {
  import opened Base
  import opened Host
  import opened Encoding
  import S = VersusState
  import I = VersusImplementation
  import P = VersusProxy

  // ---------------------------------------------------------------------------
  // The State as a callee

  /** A State entry-point table: the one the source declares, or the one with
      the `isAdded` entry point the Implementation calls. */
  type StateTable = (S.StateData, string, ReceiveContext) -> (S.Outcome, S.StateData)

  /** How the caller sees the State's outcome. */
  function StateReply(o: S.Outcome): (r: InvokeResult)
    ensures r.Invoked? <==> o.Returned?
    ensures o.Returned? ==> r == Invoked(Some(o.value))
  {
    match o
    case Returned(b) => Invoked(Some(b))
    case Rejected(e) => CallFailed(Observed(S.RejectOf(e)))
    case NoSuchEntrypoint => CallFailed(MissingEntrypoint)
  }

  /** The context of a call from `caller` to the State at `state`. */
  function StateContext(caller: Address, state: ContractAddress, call: Invocation): ReceiveContext {
    ReceiveContext(caller, state, call.parameter)
  }

  /** The replies `caller` gets from the State `st` at address `state`; a call
      to any other instance finds no contract. */
  function StateHost(table: StateTable, st: S.StateData, state: ContractAddress, caller: Address): HostReplies {
    (call: Invocation) =>
      if call.target == state then StateReply(table(st, call.entrypoint, StateContext(caller, state, call)).0)
      else CallFailed(MissingContract)
  }

  /** The State after the calls `caller` made to it, applied in order. */
  function ApplyToState(table: StateTable, st: S.StateData, state: ContractAddress, caller: Address, calls: seq<Invocation>): S.StateData
    decreases |calls|
  {
    if calls == [] then st
    else
      var next := if calls[0].target == state && !calls[0].readOnly
        then table(st, calls[0].entrypoint, StateContext(caller, state, calls[0])).1 else st;
      ApplyToState(table, next, state, caller, calls[1..])
  }

  /** A read-only call changes nothing in the State. */
  lemma ReadOnlyChangesNothing(st: S.StateData, entrypoint: string, ctx: ReceiveContext)
    requires entrypoint in {"getPaused", "getPlayerData", "view", "isAdded"}
    ensures S.Receive(st, entrypoint, ctx).1 == st
  {
  }

  // ---------------------------------------------------------------------------
  // The Implementation over a State

  /** Every entry point of the Implementation makes at most one mutating call,
      and makes it last: all its reads see the State as it was before the call. */
  lemma OneWriteLast(id: I.ImplementationData, entrypoint: string, ctx: ReceiveContext, host: HostReplies)
    ensures var d := I.Receive(id, entrypoint, ctx, host);
      Mutating(d.calls) == if d.calls != [] && !d.calls[|d.calls| - 1].readOnly then [d.calls[|d.calls| - 1]] else []
  {
    I.ReceiveReadsFirst(id, entrypoint, ctx, host);
    ReadsFirstMutating(I.Receive(id, entrypoint, ctx, host).calls);
  }

  /** The Implementation `id` at `implementation`, with a State `st` at the
      address it records, reached by `sender`. */
  function ImplementationCall(table: StateTable, id: I.ImplementationData, st: S.StateData, implementation: ContractAddress,
                              sender: Address, entrypoint: string, parameter: Bytes): I.Delivery
  {
    var state := if id.protocolAddresses.Initialized? then id.protocolAddresses.stateAddress else implementation;
    I.Receive(id, entrypoint, ReceiveContext(sender, implementation, parameter), StateHost(table, st, state, Contract(implementation)))
  }

  /** The State after an Implementation delivery: its writes if it returned,
      nothing if it rejected. */
  function StateAfter(table: StateTable, id: I.ImplementationData, st: S.StateData, implementation: ContractAddress, d: I.Delivery): S.StateData {
    if d.outcome.Returned? && id.protocolAddresses.Initialized? then
      ApplyToState(table, st, id.protocolAddresses.stateAddress, Contract(implementation), d.calls)
    else st
  }

  /** Proxy `proxy`, Implementation at `implementation` and State at `state`
      recording each other. */
  predicate Wired(id: I.ImplementationData, st: S.StateData, proxy: ContractAddress, implementation: ContractAddress, state: ContractAddress) {
    id.protocolAddresses == I.Initialized(proxy, state) &&
    st.protocolAddresses == S.Initialized(proxy, implementation)
  }

  /** With reads first, only the last call, if it is a write to the State,
      changes the State. */
  lemma {:induction false} ApplyReadsFirst(table: StateTable, st: S.StateData, state: ContractAddress, caller: Address, calls: seq<Invocation>)
    requires ReadsFirst(calls)
    ensures ApplyToState(table, st, state, caller, calls) ==
      if calls != [] && !calls[|calls| - 1].readOnly && calls[|calls| - 1].target == state
      then table(st, calls[|calls| - 1].entrypoint, StateContext(caller, state, calls[|calls| - 1])).1
      else st
    decreases |calls|
  {
    if calls != [] {
      assert ReadsFirst(calls[1..]) by {
        forall i | 0 <= i < |calls[1..]| - 1 ensures calls[1..][i].readOnly {
          assert calls[1..][i] == calls[i + 1];
        }
      }
      if |calls| > 1 {
        assert calls[0].readOnly;
        ApplyReadsFirst(table, st, state, caller, calls[1..]);
        assert calls[1..][|calls[1..]| - 1] == calls[|calls| - 1];
      }
    }
  }

  /** What the State host answers to a call addressed to the State. */
  lemma StateAnswers(table: StateTable, st: S.StateData, state: ContractAddress, caller: Address, call: Invocation)
    requires call.target == state
    ensures StateHost(table, st, state, caller)(call) == StateReply(table(st, call.entrypoint, StateContext(caller, state, call)).0)
  {
  }

  /** The State's name for an Implementation player state, when it has one. */
  function StoredAs(p: I.PlayerState): Option<S.PlayerState> {
    match p
    case Active => Some(S.Active)
    case Suspended => Some(S.Suspended)
    case NotAdded => None
  }

  /** The Implementation's name for a State battle result. */
  function ResultAs(r: S.BattleResult): I.BattleResult {
    match r
    case NoResult => I.NoResult
    case Win => I.Win
    case Loss => I.Loss
  }

  /** The pause read, answered by the State. */
  lemma PausedAnswer(st: S.StateData, state: ContractAddress, caller: Address)
    ensures StateHost(S.Receive, st, state, caller)(I.PausedQuery(state)) == Invoked(Some(EncodeBool(st.paused)))
  {
    var q := I.PausedQuery(state);
    assert q.entrypoint == "getPaused";
    assert S.Receive(st, q.entrypoint, StateContext(caller, state, q)).0 == S.Returned(EncodeBool(st.paused));
    assert StateHost(S.Receive, st, state, caller)(q) == StateReply(S.Receive(st, q.entrypoint, StateContext(caller, state, q)).0);
  }

  /** `updatePlayerState` from the Proxy, with the aligned ordinals: the State
      stores the same-named state and keeps the battle result; NotAdded, which
      the State cannot represent, is refused and nothing changes. */
  lemma UpdatePlayerStateReachesState(id: I.ImplementationData, st: S.StateData, proxy: ContractAddress, implementation: ContractAddress,
                                      state: ContractAddress, ctx: ReceiveContext, player: Address, p: I.PlayerState)
    requires Wired(id, st, proxy, implementation, state) && !st.paused
    requires ctx.sender == Contract(proxy) && ctx.parameter == I.EncodeUpdatePlayerStateParams(I.Aligned, player, p)
    ensures var host := StateHost(S.Receive, st, state, Contract(implementation));
      var t := I.UpdatePlayerStateStep(id, ctx, host);
      var after := ApplyToState(S.Receive, st, state, Contract(implementation), t.calls);
      && (StoredAs(p).Some? ==>
            t.result.Ok? && after == st.(playerData := st.playerData[player := S.PlayerData(StoredAs(p).value, S.Record(st.playerData, player).result)]))
      && (StoredAs(p).None? ==> t.result == Err(I.InvokeContractError) && after == st)
  {
    var host := StateHost(S.Receive, st, state, Contract(implementation));
    PausedAnswer(st, state, Contract(implementation));
    I.UpdatePlayerStateParamsRoundTrip(I.Aligned, player, p);
    var t := I.UpdatePlayerStateStep(id, ctx, host);
    var call := Invocation(state, "updatePlayerState", ctx.parameter, 0, false);
    assert t.calls == [I.PausedQuery(state), call];
    AddressRoundTrip(player, [I.PlayerStateOrdinal(I.Aligned, p)]);
    ApplyReadsFirst(S.Receive, st, state, Contract(implementation), t.calls);
  }

  /** The same call with the declared ordinals: asked to make a player Active,
      the State records Suspended; asked for Suspended, the call fails. */
  lemma OrdinalsAsWrittenSwapStates(id: I.ImplementationData, st: S.StateData, proxy: ContractAddress, implementation: ContractAddress,
                                    state: ContractAddress, ctx: ReceiveContext, player: Address, p: I.PlayerState)
    requires Wired(id, st, proxy, implementation, state) && !st.paused
    requires ctx.sender == Contract(proxy) && ctx.parameter == I.EncodeUpdatePlayerStateParams(I.Declared, player, p)
    ensures var host := StateHost(S.Receive, st, state, Contract(implementation));
      var t := I.UpdatePlayerStateAsWritten(id, ctx, host);
      var after := ApplyToState(S.Receive, st, state, Contract(implementation), t.calls);
      && (p == I.Active ==> t.result.Ok? && player in after.playerData && after.playerData[player].state == S.Suspended)
      && (p == I.Suspended ==> t.result == Err(I.InvokeContractError) && after == st)
  {
    var host := StateHost(S.Receive, st, state, Contract(implementation));
    PausedAnswer(st, state, Contract(implementation));
    I.UpdatePlayerStateParamsRoundTrip(I.Declared, player, p);
    var t := I.UpdatePlayerStateAsWritten(id, ctx, host);
    var call := Invocation(state, "updatePlayerState", ctx.parameter, 0, false);
    assert t.calls == [I.PausedQuery(state), call];
    AddressRoundTrip(player, [I.PlayerStateOrdinal(I.Declared, p)]);
    ApplyReadsFirst(S.Receive, st, state, Contract(implementation), t.calls);
  }

  /** Reading back a record through the Implementation: with the aligned
      ordinals the state keeps its name; with the declared ones a record the
      State holds as Active comes back as NotAdded. A player with no record is
      refused by the State, which the Implementation reports as
      InvokeContractError. */
  lemma GetPlayerDataReadsBack(id: I.ImplementationData, st: S.StateData, proxy: ContractAddress, implementation: ContractAddress,
                               state: ContractAddress, ctx: ReceiveContext, player: Address)
    requires Wired(id, st, proxy, implementation, state)
    requires ctx.parameter == EncodeAddress(player)
    ensures var host := StateHost(S.Receive, st, state, Contract(implementation));
      && (player in st.playerData ==>
            var record := st.playerData[player];
            && I.GetPlayerDataStep(id, ctx, host).result ==
                 Ok((if record.state == S.Active then I.Active else I.Suspended, ResultAs(record.result)))
            && (record.state == S.Active ==>
                  I.GetPlayerDataAsWritten(id, ctx, host).result == Ok((I.NotAdded, ResultAs(record.result)))))
      && (player !in st.playerData ==>
            I.GetPlayerDataStep(id, ctx, host).result == Err(I.InvokeContractError) &&
            I.GetPlayerDataAsWritten(id, ctx, host).result == Err(I.InvokeContractError))
  {
    AddressRoundTrip(player, []);
    assert EncodeAddress(player) + [] == ctx.parameter;
    var q := I.PlayerDataQuery(state, player);
    assert q.entrypoint == "getPlayerData";
    var host := StateHost(S.Receive, st, state, Contract(implementation));
    assert host(q) == StateReply(S.Receive(st, q.entrypoint, StateContext(Contract(implementation), state, q)).0);
    if player in st.playerData {
      assert S.Receive(st, q.entrypoint, StateContext(Contract(implementation), state, q)).0 ==
        S.Returned(S.EncodePlayerData(st.playerData[player]));
    } else {
      assert S.Receive(st, q.entrypoint, StateContext(Contract(implementation), state, q)).0 ==
        S.Rejected(S.StateInvokeError);
    }
  }

  /** A paused State stops every business entry point of the Implementation
      after the pause read; the State is left as it was. */
  lemma PausedStateBlocksBusiness(id: I.ImplementationData, st: S.StateData, proxy: ContractAddress, implementation: ContractAddress,
                                  state: ContractAddress, entrypoint: string, ctx: ReceiveContext)
    requires Wired(id, st, proxy, implementation, state) && st.paused
    requires entrypoint in I.BUSINESS && ctx.sender == Contract(proxy)
    ensures var d := ImplementationCall(S.Receive, id, st, implementation, ctx.sender, entrypoint, ctx.parameter);
      d.outcome == I.Rejected(I.ContractPaused) && StateAfter(S.Receive, id, st, implementation, d) == st
  {
    PausedAnswer(st, state, Contract(implementation));
    I.PausedBlocksBusiness(id, entrypoint, ReceiveContext(ctx.sender, implementation, ctx.parameter),
      StateHost(S.Receive, st, state, Contract(implementation)));
  }

  /** `pause` and `unpause` from the Implementation's admin reach the State and
      set its flag; nothing else in the State changes. */
  lemma PauseReachesState(id: I.ImplementationData, st: S.StateData, proxy: ContractAddress, implementation: ContractAddress,
                          state: ContractAddress, ctx: ReceiveContext, paused: bool)
    requires Wired(id, st, proxy, implementation, state)
    requires ctx.sender == id.admin
    ensures var d := ImplementationCall(S.Receive, id, st, implementation, ctx.sender, if paused then "pause" else "unpause", ctx.parameter);
      d.outcome == I.Returned([]) && d.post == id && StateAfter(S.Receive, id, st, implementation, d) == st.(paused := paused)
  {
    var host := StateHost(S.Receive, st, state, Contract(implementation));
    var call := Invocation(state, "setPaused", EncodeBool(paused), 0, false);
    assert call.entrypoint == "setPaused";
    assert Get(DecodeBool(call.parameter)) == Some(paused);
    assert S.Receive(st, call.entrypoint, StateContext(Contract(implementation), state, call)) == (S.Returned([]), st.(paused := paused));
    var d := ImplementationCall(S.Receive, id, st, implementation, ctx.sender, if paused then "pause" else "unpause", ctx.parameter);
    assert d.calls == [call];
    ApplyReadsFirst(S.Receive, st, state, Contract(implementation), d.calls);
  }

  /** The State as declared has no `isAdded`, so once the guards pass,
      `addPlayer` fails with InvokeContractError for every player, with either
      guard, and never reaches the State's `addPlayer`. */
  lemma AddPlayerAgainstDeclaredState(id: I.ImplementationData, st: S.StateData, proxy: ContractAddress, implementation: ContractAddress,
                                      state: ContractAddress, ctx: ReceiveContext)
    requires Wired(id, st, proxy, implementation, state) && !st.paused
    requires ctx.sender == Contract(proxy) && Get(DecodeAddress(ctx.parameter)).Some?
    ensures var host := StateHost(S.ReceiveAsWritten, st, state, Contract(implementation));
      && I.AddPlayerStep(id, ctx, host).result == Err(I.InvokeContractError)
      && I.AddPlayerAsWritten(id, ctx, host).result == Err(I.InvokeContractError)
      && Mutating(I.AddPlayerStep(id, ctx, host).calls) == []
  {
    var host := StateHost(S.ReceiveAsWritten, st, state, Contract(implementation));
    var q := I.PausedQuery(state);
    StateAnswers(S.ReceiveAsWritten, st, state, Contract(implementation), q);
    assert q.entrypoint == "getPaused" && q.entrypoint in S.ENTRYPOINTS;
    assert S.ReceiveAsWritten(st, q.entrypoint, StateContext(Contract(implementation), state, q)).0 == S.Returned(EncodeBool(st.paused));
    var added := I.IsAddedQuery(state, Get(DecodeAddress(ctx.parameter)).value);
    StateAnswers(S.ReceiveAsWritten, st, state, Contract(implementation), added);
    assert added.entrypoint !in S.ENTRYPOINTS;
    var t := I.AddPlayerStep(id, ctx, host);
    assert t.calls == [q, added];
    ReadsFirstMutating(t.calls);
  }

  /** With `isAdded` in place, the corrected `addPlayer` creates the default
      record for a new player and refuses one already added, leaving the State
      as it was. */
  lemma AddPlayerReachesState(id: I.ImplementationData, st: S.StateData, proxy: ContractAddress, implementation: ContractAddress,
                              state: ContractAddress, ctx: ReceiveContext, player: Address)
    requires Wired(id, st, proxy, implementation, state) && !st.paused
    requires ctx.sender == Contract(proxy) && ctx.parameter == EncodeAddress(player)
    ensures var host := StateHost(S.Receive, st, state, Contract(implementation));
      var t := I.AddPlayerStep(id, ctx, host);
      var after := ApplyToState(S.Receive, st, state, Contract(implementation), t.calls);
      && (player !in st.playerData ==> t.result.Ok? && after == st.(playerData := st.playerData[player := S.DEFAULT_PLAYER]))
      && (player in st.playerData ==> t.result == Err(I.AlreadyAdded) && after == st)
  {
    AddPlayerCalls(id, st, proxy, implementation, state, ctx, player, true);
  }

  /** The `addPlayer` guard as written, against the same State: a new player
      is refused as AlreadyAdded, and only players already added get through,
      which changes nothing. */
  lemma AddPlayerAsWrittenInverted(id: I.ImplementationData, st: S.StateData, proxy: ContractAddress, implementation: ContractAddress,
                                   state: ContractAddress, ctx: ReceiveContext, player: Address)
    requires Wired(id, st, proxy, implementation, state) && !st.paused
    requires ctx.sender == Contract(proxy) && ctx.parameter == EncodeAddress(player)
    ensures var host := StateHost(S.Receive, st, state, Contract(implementation));
      var t := I.AddPlayerAsWritten(id, ctx, host);
      var after := ApplyToState(S.Receive, st, state, Contract(implementation), t.calls);
      && (player !in st.playerData ==> t.result == Err(I.AlreadyAdded) && after == st)
      && (player in st.playerData ==> t.result.Ok? && after == st)
  {
    AddPlayerCalls(id, st, proxy, implementation, state, ctx, player, false);
  }

  /** The calls of `addPlayer` with either guard, answered by the State. */
  lemma AddPlayerCalls(id: I.ImplementationData, st: S.StateData, proxy: ContractAddress, implementation: ContractAddress,
                       state: ContractAddress, ctx: ReceiveContext, player: Address, rejectWhenAdded: bool)
    requires Wired(id, st, proxy, implementation, state) && !st.paused
    requires ctx.sender == Contract(proxy) && ctx.parameter == EncodeAddress(player)
    ensures var host := StateHost(S.Receive, st, state, Contract(implementation));
      var t := I.AddPlayerWith(id, ctx, host, rejectWhenAdded);
      var after := ApplyToState(S.Receive, st, state, Contract(implementation), t.calls);
      && ((player in st.playerData) == rejectWhenAdded ==> t.result == Err(I.AlreadyAdded) && after == st)
      && ((player in st.playerData) != rejectWhenAdded ==> t.result.Ok? && after == st.(playerData := st.playerData[player := S.Record(st.playerData, player)]))
  {
    var host := StateHost(S.Receive, st, state, Contract(implementation));
    PausedAnswer(st, state, Contract(implementation));
    AddressRoundTrip(player, []);
    assert EncodeAddress(player) + [] == ctx.parameter;
    var added := I.IsAddedQuery(state, player);
    StateAnswers(S.Receive, st, state, Contract(implementation), added);
    assert added.entrypoint == "isAdded";
    assert S.Receive(st, added.entrypoint, StateContext(Contract(implementation), state, added)).0 == S.Returned(EncodeBool(player in st.playerData));
    var call := Invocation(state, "addPlayer", EncodeAddress(player), 0, false);
    StateAnswers(S.Receive, st, state, Contract(implementation), call);
    assert call.entrypoint == "addPlayer";
    var t := I.AddPlayerWith(id, ctx, host, rejectWhenAdded);
    ApplyReadsFirst(S.Receive, st, state, Contract(implementation), t.calls);
    if (player in st.playerData) != rejectWhenAdded {
      assert t.calls == [I.PausedQuery(state), added, call];
      assert S.Receive(st, call.entrypoint, StateContext(Contract(implementation), state, call)).1 ==
        st.(playerData := st.playerData[player := S.Record(st.playerData, player)]);
    }
  }

  // ---------------------------------------------------------------------------
  // The whole protocol, reached through the Proxy

  /** Where the three instances live. */
  datatype Deployment = Deployment(proxy: ContractAddress, implementation: ContractAddress, state: ContractAddress)

  predicate Distinct(a: Deployment) {
    a.proxy != a.implementation && a.proxy != a.state && a.implementation != a.state
  }

  /** The three instances' states. */
  datatype World = World(proxy: P.ProxyData, implementation: I.ImplementationData, state: S.StateData)

  /** The Proxy, Implementation and State recording each other. */
  predicate Deployed(w: World, a: Deployment) {
    w.proxy.implementationAddress == a.implementation && w.proxy.stateAddress == a.state &&
    Wired(w.implementation, w.state, a.proxy, a.implementation, a.state)
  }

  /** How the caller sees the Implementation's outcome. */
  function ImplementationReply(o: I.Outcome): (r: InvokeResult)
    ensures r.Invoked? <==> o.Returned?
  {
    match o
    case Returned(b) => Invoked(Some(b))
    case Rejected(e) => CallFailed(Observed(I.RejectOf(e)))
    case NoSuchEntrypoint => CallFailed(MissingEntrypoint)
  }

  /** The Implementation answering a call from the Proxy. */
  function FromProxy(w: World, a: Deployment, call: Invocation): I.Delivery {
    ImplementationCall(S.Receive, w.implementation, w.state, a.implementation, Contract(a.proxy), call.entrypoint, call.parameter)
  }

  /** The replies the Proxy gets from the other two. */
  function ProxyHost(w: World, a: Deployment): HostReplies {
    (call: Invocation) =>
      if call.target == a.state then StateHost(S.Receive, w.state, a.state, Contract(a.proxy))(call)
      else if call.target == a.implementation then ImplementationReply(FromProxy(w, a, call).outcome)
      else CallFailed(MissingContract)
  }

  /** The effect of the Proxy's mutating calls, in order. */
  function Settle(w: World, a: Deployment, calls: seq<Invocation>): World
    decreases |calls|
  {
    if calls == [] then w
    else
      var c := calls[0];
      var next :=
        if c.readOnly then w
        else if c.target == a.state then w.(state := S.Receive(w.state, c.entrypoint, StateContext(Contract(a.proxy), a.state, c)).1)
        else if c.target == a.implementation then
          var d := FromProxy(w, a, c);
          if d.outcome.Returned? then w.(implementation := d.post, state := StateAfter(S.Receive, w.implementation, w.state, a.implementation, d))
          else w
        else w;
      Settle(next, a, calls[1..])
  }

  /** One transaction: `sender` calls `entrypoint` on the Proxy. A reject
      anywhere undoes everything. */
  function Transact(w: World, a: Deployment, entrypoint: string, sender: Address, parameter: Bytes, amount: u64): (P.Outcome, World) {
    var d := P.Receive(w.proxy, entrypoint, ReceiveContext(sender, a.proxy, parameter), amount, ProxyHost(w, a));
    if d.outcome.Returned? then (d.outcome, Settle(w.(proxy := d.post), a, d.calls)) else (d.outcome, w)
  }

  /** What the Implementation answers to the Proxy's single fallback call. */
  function Forwarded(w: World, a: Deployment, entrypoint: string, parameter: Bytes): (P.Outcome, World) {
    var d := ImplementationCall(S.Receive, w.implementation, w.state, a.implementation, Contract(a.proxy), entrypoint, parameter);
    match d.outcome
    case Returned(b) => (P.Returned(b), w.(implementation := d.post, state := StateAfter(S.Receive, w.implementation, w.state, a.implementation, d)))
    case Rejected(e) => (P.Relayed(I.RejectOf(e).code, [I.ErrorOrdinal(e)]), w)
    case NoSuchEntrypoint => (P.CallRejected(MissingEntrypoint), w)
  }

  /** The fallback: a call to any entry point the Proxy does not declare has
      exactly the effect of the Proxy calling the Implementation with the same
      entry point and parameter, and returns or rejects as the Implementation
      does. The caller's identity does not reach the Implementation. */
  lemma {:induction false} FallbackIsImplementation(w: World, a: Deployment, entrypoint: string, sender: Address, parameter: Bytes)
    requires Deployed(w, a) && Distinct(a)
    requires entrypoint !in P.NAMED
    ensures Transact(w, a, entrypoint, sender, parameter, 0) == Forwarded(w, a, entrypoint, parameter)
  {
    var call := P.ForwardCall(w.proxy, entrypoint, ReceiveContext(sender, a.proxy, parameter), 0);
    assert ProxyHost(w, a)(call) == ImplementationReply(FromProxy(w, a, call).outcome);
    var d := FromProxy(w, a, call);
    var pd := P.Receive(w.proxy, entrypoint, ReceiveContext(sender, a.proxy, parameter), 0, ProxyHost(w, a));
    assert pd.post == w.proxy && pd.calls == [call];
    assert w.(proxy := pd.post) == w;
    if d.outcome.Returned? {
      assert [call][1..] == [];
      assert Settle(w, a, [call]) == Settle(Forwarded(w, a, entrypoint, parameter).1, a, []);
    }
  }

  /** Through the fallback every caller is the Proxy: two senders calling the
      same entry point with the same parameter have the same effect. */
  lemma FallbackForgetsSender(w: World, a: Deployment, entrypoint: string, sender: Address, other: Address, parameter: Bytes)
    requires Deployed(w, a) && Distinct(a)
    requires entrypoint !in P.NAMED
    ensures Transact(w, a, entrypoint, sender, parameter, 0) == Transact(w, a, entrypoint, other, parameter, 0)
  {
    FallbackIsImplementation(w, a, entrypoint, sender, parameter);
    FallbackIsImplementation(w, a, entrypoint, other, parameter);
  }

  /** A user's `updatePlayerState` through the Proxy, on an unpaused protocol,
      rewrites that player's state in the State and changes nothing else. */
  lemma UserUpdatesPlayerState(w: World, a: Deployment, sender: Address, player: Address, p: I.PlayerState)
    requires Deployed(w, a) && Distinct(a) && !w.state.paused
    requires StoredAs(p).Some?
    ensures Transact(w, a, "updatePlayerState", sender, I.EncodeUpdatePlayerStateParams(I.Aligned, player, p), 0) ==
      (P.Returned([]), w.(state := w.state.(playerData :=
        w.state.playerData[player := S.PlayerData(StoredAs(p).value, S.Record(w.state.playerData, player).result)])))
  {
    var parameter := I.EncodeUpdatePlayerStateParams(I.Aligned, player, p);
    FallbackIsImplementation(w, a, "updatePlayerState", sender, parameter);
    UpdatePlayerStateReachesState(w.implementation, w.state, a.proxy, a.implementation, a.state,
      ReceiveContext(Contract(a.proxy), a.implementation, parameter), player, p);
  }

  /** Bootstrapping: a Proxy instantiated with (implementation, state), over a
      fresh Implementation and State, wires all three with one `initialize`
      from any sender; a second `initialize` is refused and changes nothing. */
  lemma Bootstrap(a: Deployment, origin: AccountAddress, implementationAdmin: Address, sender: Address, parameter: Bytes,
                  again: Address, parameterAgain: Bytes)
    requires Distinct(a)
    ensures P.InitStep(InitContext(origin, EncodeContractAddressPair(a.implementation, a.state))).Some?
    ensures var w := World(P.InitStep(InitContext(origin, EncodeContractAddressPair(a.implementation, a.state))).value,
                           I.New(implementationAdmin), S.New());
      var (o, w') := Transact(w, a, "initialize", sender, parameter, 0);
      && o == P.Returned([])
      && Deployed(w', a) && w'.proxy == w.proxy && w'.implementation.admin == implementationAdmin
      && !w'.state.paused && w'.state.playerData == map[]
      && Transact(w', a, "initialize", again, parameterAgain, 0) == (P.Rejected(P.InvokeContractError), w')
  {
    ContractAddressPairRoundTrip(a.implementation, a.state, []);
    assert EncodeContractAddressPair(a.implementation, a.state) + [] == EncodeContractAddressPair(a.implementation, a.state);
    var pd := P.InitStep(InitContext(origin, EncodeContractAddressPair(a.implementation, a.state))).value;
    var w := World(pd, I.New(implementationAdmin), S.New());
    var ctx := ReceiveContext(sender, a.proxy, parameter);
    var first := P.InitializeStateCall(pd, a.proxy);
    var second := P.InitializeImplementationCall(pd, a.proxy);
    var stateCtx := StateContext(Contract(a.proxy), a.state, first);
    S.AddressesAfterInitialize(S.New(), a.proxy, a.implementation, stateCtx);
    assert first.entrypoint == "initialize";
    StateAnswers(S.Receive, w.state, a.state, Contract(a.proxy), first);
    var implCtx := ReceiveContext(Contract(a.proxy), a.implementation, second.parameter);
    I.AddressesAfterInitialize(I.New(implementationAdmin), a.proxy, a.state, implCtx);
    assert second.entrypoint == "initialize";
    assert ProxyHost(w, a)(second) == ImplementationReply(FromProxy(w, a, second).outcome);
    var d := P.Receive(w.proxy, "initialize", ctx, 0, ProxyHost(w, a));
    assert d.outcome == P.Returned([]) && d.calls == [first, second] && d.post == pd;
    var w1 := w.(state := S.Receive(w.state, first.entrypoint, stateCtx).1);
    assert [first, second][1..] == [second];
    assert Settle(w, a, [first, second]) == Settle(w1, a, [second]);
    var w2 := w1.(implementation := FromProxy(w1, a, second).post);
    assert Settle(w1, a, [second]) == Settle(w2, a, []);
    assert w.(proxy := pd) == w;
    // The second time, the State refuses first.
    var ctx2 := ReceiveContext(again, a.proxy, parameterAgain);
    StateAnswers(S.Receive, w2.state, a.state, Contract(a.proxy), first);
    assert P.Receive(w2.proxy, "initialize", ctx2, 0, ProxyHost(w2, a)).outcome == P.Rejected(P.InvokeContractError);
  }

  /** `updateImplementation` from the Proxy's admin points both the Proxy and
      the State at the new Implementation; from then on the State refuses every
      write from the old one. */
  lemma UpgradeMovesState(w: World, a: Deployment, implementation: ContractAddress, entrypoint: string, ctx: ReceiveContext)
    requires Deployed(w, a) && Distinct(a)
    requires entrypoint in S.IMPLEMENTATION_ONLY && ctx.sender == Contract(a.implementation) && implementation != a.implementation
    ensures var (o, w') := Transact(w, a, "updateImplementation", w.proxy.admin, EncodeContractAddress(implementation), 0);
      && o == P.Returned([])
      && w' == World(w.proxy.(implementationAddress := implementation), w.implementation,
                     w.state.(protocolAddresses := S.Initialized(a.proxy, implementation)))
      && S.Receive(w'.state, entrypoint, ctx) == (S.Rejected(S.OnlyImplementation), w'.state)
  {
    ContractAddressRoundTrip(implementation, []);
    assert EncodeContractAddress(implementation) + [] == EncodeContractAddress(implementation);
    var call := P.SetImplementationCall(a.state, implementation);
    assert call.entrypoint == "setImplementationAddress";
    var stateCtx := StateContext(Contract(a.proxy), a.state, call);
    StateAnswers(S.Receive, w.state, a.state, Contract(a.proxy), call);
    assert S.Receive(w.state, call.entrypoint, stateCtx) ==
      (S.Returned([]), w.state.(protocolAddresses := S.Initialized(a.proxy, implementation)));
    var d := P.Receive(w.proxy, "updateImplementation", ReceiveContext(w.proxy.admin, a.proxy, EncodeContractAddress(implementation)), 0, ProxyHost(w, a));
    assert d.calls == [call] && d.outcome == P.Returned([]);
    assert d.post == w.proxy.(implementationAddress := implementation);
    var w1 := w.(proxy := d.post);
    assert [call][1..] == [];
    assert Settle(w1, a, [call]) == Settle(w1.(state := S.Receive(w1.state, call.entrypoint, stateCtx).1), a, []);
    var w' := Transact(w, a, "updateImplementation", w.proxy.admin, EncodeContractAddress(implementation), 0).1;
    S.MutationsRequireImplementation(w'.state, entrypoint, ctx);
  }

  /** One transaction in which `sender` calls the Implementation directly. */
  function TransactImplementation(w: World, a: Deployment, entrypoint: string, sender: Address, parameter: Bytes): (I.Outcome, World) {
    var d := ImplementationCall(S.Receive, w.implementation, w.state, a.implementation, sender, entrypoint, parameter);
    if d.outcome.Returned? then (d.outcome, w.(implementation := d.post, state := StateAfter(S.Receive, w.implementation, w.state, a.implementation, d)))
    else (d.outcome, w)
  }

  /** The Implementation's admin pauses the protocol; from then on every
      business call through the Proxy is rejected with ContractPaused's code
      and changes nothing, until the admin unpauses. */
  lemma PauseEndToEnd(w: World, a: Deployment, entrypoint: string, user: Address, parameter: Bytes, adminParameter: Bytes)
    requires Deployed(w, a) && Distinct(a)
    requires entrypoint in I.BUSINESS
    ensures var (o, paused) := TransactImplementation(w, a, "pause", w.implementation.admin, adminParameter);
      && o == I.Returned([]) && paused == w.(state := w.state.(paused := true))
      && Transact(paused, a, entrypoint, user, parameter, 0) ==
           (P.Relayed(I.RejectOf(I.ContractPaused).code, [I.ErrorOrdinal(I.ContractPaused)]), paused)
      && TransactImplementation(paused, a, "unpause", w.implementation.admin, adminParameter) ==
           (I.Returned([]), w.(state := w.state.(paused := false)))
  {
    var ctx := ReceiveContext(w.implementation.admin, a.implementation, adminParameter);
    PauseReachesState(w.implementation, w.state, a.proxy, a.implementation, a.state, ctx, true);
    var paused := w.(state := w.state.(paused := true));
    PauseReachesState(paused.implementation, paused.state, a.proxy, a.implementation, a.state, ctx, false);
    FallbackIsImplementation(paused, a, entrypoint, user, parameter);
    PausedStateBlocksBusiness(paused.implementation, paused.state, a.proxy, a.implementation, a.state, entrypoint,
      ReceiveContext(Contract(a.proxy), a.implementation, parameter));
  }
}

# Versus: an upgradeable Concordium contract system, modelled in Dafny

Versus is a set of three Concordium V1 smart contracts that keep a register of
players. Each player has a state (Active or Suspended) and a last battle result
(none, win or loss). The three contracts split the upgradeable-proxy pattern
between them:

- **Versus-Proxy** is the stable address users call. It holds an admin and the
  addresses of the other two contracts. Its `initialize` entry point bootstraps
  both of them. Its fallback forwards every entry point it does not declare
  itself to the current Implementation, unaltered. Its admin can swap the
  Implementation with `updateImplementation`, and that call tells the State
  about the new one.
- **Versus-Implementation** holds the business rules. It accepts business calls
  (`updatePlayerState`, `updateBattleResult`, `addPlayer`) only from the Proxy.
  It reads the State's pause flag before each one, then forwards exactly one
  mutation to the State. Its admin can pause and unpause the protocol, and can
  hand over the admin role.
- **Versus-State** is the durable store. It keeps the player records, the pause
  flag and the (proxy, implementation) pair. It accepts mutations only from the
  recorded Implementation, and a new Implementation address only from the
  Proxy.

The model has these files:
- `base.dfy`: bytes, addresses, `Option` and `Result`.
- `encoding.dfy`: the concordium_std wire layout (little-endian `u64`, tagged
  `Address`, `bool` as one byte, enums as one ordinal byte), with round-trip
  lemmas.
- `host.dfy`: what a contract sees of the chain. That is the call context, its
  outgoing calls, and the host's replies to them, given as a function. A small
  `Link` class records the calls and log records of one entry point.
- `events.dfy`: the NewAdmin (tag 250) and NewImplementation (tag 249) events.
- `state.dfy`, `implementation.dfy`, `proxy.dfy`: one module per contract.
  Each has pure `…Step` functions that state every entry point's errors, frame
  and new state. Each also has a `class` with the contract's fields, whose
  methods update them in place and are proved equal to the step functions.
  Lemmas about sequences of calls sit beside them.
- `protocol.dfy`: the three contracts wired together.
  - The replies each contract gets are computed by the contract it calls.
  - `Transact` models one user transaction through the Proxy, in which a reject
    anywhere undoes everything.
  - The lemmas cover bootstrap, forwarding, pausing end to end, upgrading, and
    both halves of each finding.

Two decisions follow the code where the prose description differs:
- **The Proxy fallback does not turn every failure into its own
  InvokeContractError.** A LogicReject from the Implementation is passed on
  with the same reason code and return bytes. Any other call failure goes
  through concordium_std's own conversion of call errors into a reject, since
  the closure at `proxy/src/lib.rs:284-298` returns a `Reject`. The model keeps
  this as the `CallRejected` outcome.
- **The State source does not compile as written.**
  - `From<LogError>` names the variants `LogFull` and `LogMalformed`, which the
    State's error enum lacks (`state/src/lib.rs:143-150`).
  - `getPlayerData` uses an unbound `ctx` and assigns an `entry(..)` to a
    `PlayerData` (`state/src/lib.rs:438-440`).

  The model takes the evident intent. The error enum is the one declared, and
  `getPlayerData` returns the stored record. A player with no record has not
  been added: the State's `PlayerState` has no value for that, so
  `getPlayerData` rejects with StateInvokeError and inserts nothing. The
  Implementation sees that reject as a failed call, InvokeContractError.

Reject codes follow `derive(Reject)`: the variant with index *k* rejects with
code −(*k*+1), and the serialized variant is the return value.

## Model

| member | source | states |
|---|---|---|
| Encoding.U64RoundTrip | state/src/lib.rs:64-67 | decoding an encoded `u64` (8 bytes, little-endian) gives back the value and the untouched rest |
| Encoding.ContractAddressPairRoundTrip | state/src/lib.rs:54-59 | the two-address parameters (`InitializeStateParams`, `InitProxyParams`, `InitializeImplementationParams`) decode to the pair that was encoded, in order |
| Encoding.AddressRoundTrip | state/src/lib.rs:96-99 | an `Address` parameter (tag 0 + 32 account bytes, or tag 1 + index + subindex) decodes back to the same address |
| Encoding.BoolRoundTrip | state/src/lib.rs:71-74 | `SetPausedParams` decodes back to the flag; only bytes 0 and 1 are accepted |
| Events.ParseSerialize | proxy/src/lib.rs:30-43 | a logged NewAdmin / NewImplementation event is its tag (u8::MAX−5 / u8::MAX−6) followed by the address, and parses back to the same event |
| Events.SerializeInjective | proxy/src/lib.rs:7-10 | distinct events are logged as distinct records |
| VersusState.InitializeStep | state/src/lib.rs:196-216 | `initialize` succeeds exactly when the State is uninitialized and the parameter holds two contract addresses; it then records (proxy, implementation); AlreadyInitialized or ParseParamsError otherwise, state unchanged |
| VersusState.SetImplementationAddressStep | state/src/lib.rs:272-290 | only the recorded Proxy may replace the Implementation address, and only it changes; UnInitialized / OnlyProxy / ParseParamsError otherwise |
| VersusState.SetPausedStep | state/src/lib.rs:300-313 | only the recorded Implementation may set the flag, to the decoded value; nothing else changes |
| VersusState.UpdatePlayerStateStep | state/src/lib.rs:323-347 | from the Implementation: the player's record is created if absent (Active, NoResult), then its state is overwritten and its result kept; other records untouched |
| VersusState.UpdateBattleResultStep | state/src/lib.rs:357-381 | from the Implementation: get-or-create, then only the result is overwritten |
| VersusState.AddPlayerStep | state/src/lib.rs:391-410 | from the Implementation: a new player gets the default record; an existing record is left as it was |
| VersusState.GetPlayerData | state/src/lib.rs:434-442 | the stored record of a player who has one; StateInvokeError for a player with no record; ParseParamsError on a malformed address |
| VersusState.View | state/src/lib.rs:451-463 | both addresses and the pause flag once initialized; UnInitialized before |
| VersusState.FromImplementation | state/src/lib.rs:221-231 | a mutation passes exactly when the State is initialized and the sender is the recorded Implementation |
| VersusState.GetProtocolAddresses | state/src/lib.rs:246-258 | the recorded pair exactly when initialized, UnInitialized otherwise |
| VersusState.OnlyProxyGuard | state/src/lib.rs:233-243 | passes exactly when the sender is the given Proxy contract |
| VersusState.IsAdded | implementation/src/lib.rs:168-185 | the entry point the Implementation queries: true exactly when the player has a record |
| VersusState.ReceiveAsWritten | state/src/lib.rs:186-463 | the declared entry-point table: every other name, `isAdded` included, is NoSuchEntrypoint |
| VersusState.InitializeOnce | state/src/lib.rs:201-205 | after one successful `initialize`, every later call fails with AlreadyInitialized and changes nothing |
| VersusState.InitializeFromAnySender | state/src/lib.rs:196-216 | `initialize` does not depend on the sender: whoever calls first sets the addresses |
| VersusState.AddressesAfterInitialize | state/src/lib.rs:208-213 | after `initialize(proxy, implementation)`, the address helper returns exactly that pair |
| VersusState.UpdateThenGetPlayerData | state/src/lib.rs:336-341 | `getPlayerData` after `updatePlayerState` reads back the new state with the earlier result |
| VersusState.AddPlayerIdempotent | state/src/lib.rs:404-407 | `addPlayer` twice is the same as once |
| VersusState.MutationsRequireImplementation | state/src/lib.rs:300-410 | every write entry point refuses a sender other than the recorded Implementation with OnlyImplementation, and changes nothing |
| VersusState.ImplementationAddressRequiresProxy | state/src/lib.rs:272-290 | only the Proxy can re-point the State |
| VersusState.BeforeInitialize | state/src/lib.rs:246-258 | before `initialize`, everything that needs the addresses fails with UnInitialized, while `getPaused` still answers, and `getPlayerData` answers with the stored record for a player who has one |
| VersusState.InitializedIsPermanent | state/src/lib.rs:272-290 | over any sequence of calls, an initialized State keeps its Proxy and never loses a player record |
| VersusState.OutsidersChangeNothing | state/src/lib.rs:221-243 | calls from senders that are neither the Proxy nor the Implementation never change the State |
| VersusState.State.constructor | state/src/lib.rs:162-184 | a fresh State: uninitialized, no players, not paused |
| VersusState.State.Initialize | state/src/lib.rs:196-216 | the in-place `initialize` equals `InitializeStep` |
| VersusState.State.SetImplementationAddress | state/src/lib.rs:272-290 | the in-place entry point equals its step function |
| VersusState.State.CheckImplementation | state/src/lib.rs:221-231 | the in-place `only_implementation` check equals `FromImplementation` on the current fields |
| VersusState.State.SetPaused | state/src/lib.rs:300-313 | the in-place entry point equals its step function |
| VersusState.State.Entry | state/src/lib.rs:336-340 | `entry(..).or_insert_with(..)`: returns the record, inserting the default when absent, nothing else changes |
| VersusState.State.UpdatePlayerState | state/src/lib.rs:323-347 | the in-place entry point equals its step function |
| VersusState.State.UpdateBattleResult | state/src/lib.rs:357-381 | the in-place entry point equals its step function |
| VersusState.State.AddPlayer | state/src/lib.rs:391-410 | the in-place entry point equals its step function |
| VersusState.State.GetPaused | state/src/lib.rs:419-424 | returns the stored flag |
| VersusState.State.GetPlayerDataOf | state/src/lib.rs:434-442 | equals `GetPlayerData` on the current fields |
| VersusState.State.ViewState | state/src/lib.rs:451-463 | equals `View` on the current fields |
| VersusImplementation.Init | implementation/src/lib.rs:190-206 | the instantiating account becomes admin, the addresses are unset, and exactly one NewAdmin event for that account is logged |
| VersusImplementation.InitializeStep | implementation/src/lib.rs:218-238 | one-shot, sender-independent: records (proxy, state) when uninitialized and the parameter parses |
| VersusImplementation.GetProtocolAddresses | implementation/src/lib.rs:269-281 | the recorded pair exactly when initialized, UnInitialized otherwise |
| VersusImplementation.OnlyProxyGuard | implementation/src/lib.rs:243-250 | passes exactly when the sender is the recorded Proxy |
| VersusImplementation.WhenNotPaused | implementation/src/lib.rs:284-304 | a read of `getPaused` answering false lets the call proceed; true gives ContractPaused; no return value StateInvokeError; a failed call InvokeContractError |
| VersusImplementation.ReadReply | implementation/src/lib.rs:174-182 | how a read-only call's reply becomes a value or InvokeContractError / StateInvokeError / ParseParamsError |
| VersusImplementation.BusinessGuards | implementation/src/lib.rs:320-326 | the three guards in order (initialized, from the Proxy, not paused), with the one pause read they make |
| VersusImplementation.UpdatePlayerStateWith | implementation/src/lib.rs:314-354 | after the guards, parses (player, state) and forwards exactly that, re-encoded, in one mutating call; its result is that call's |
| VersusImplementation.UpdatePlayerStateAsWritten | implementation/src/lib.rs:37-41 | `updatePlayerState` with the declared ordinals NotAdded 0 / Active 1 / Suspended 2 |
| VersusImplementation.UpdatePlayerStateStep | implementation/src/lib.rs:314-354 | `updatePlayerState` with ordinals that agree with the State's |
| VersusImplementation.UpdateBattleResultStep | implementation/src/lib.rs:364-401 | after the guards, parses (player, result) and forwards exactly that in one mutating call |
| VersusImplementation.AddPlayerWith | implementation/src/lib.rs:411-453 | after the guards and the address parse, reads `isAdded`, rejects with AlreadyAdded when the answer equals the chosen polarity, and otherwise forwards `addPlayer(player)` |
| VersusImplementation.AddPlayerAsWritten | implementation/src/lib.rs:426-429 | the guard as written rejects a player the State reports as not added |
| VersusImplementation.AddPlayerStep | implementation/src/lib.rs:411-453 | the guard as the error name intends rejects a player already added |
| VersusImplementation.UpdateAdminStep | implementation/src/lib.rs:465-483 | only the admin, no initialization needed; parses the new admin, sets it, and logs NewAdmin for it |
| VersusImplementation.SetPausedWith | implementation/src/lib.rs:493-540 | admin check first, then the addresses, then one `setPaused(flag)` to the State |
| VersusImplementation.PauseStep | implementation/src/lib.rs:493-512 | `pause` sends `setPaused(true)` |
| VersusImplementation.UnpauseStep | implementation/src/lib.rs:521-540 | `unpause` sends `setPaused(false)` |
| VersusImplementation.GetPlayerDataWith | implementation/src/lib.rs:551-569 | parses first, then needs the addresses, then one read of the State's `getPlayerData`, whose reply decodes into the result |
| VersusImplementation.GetPlayerDataStep | implementation/src/lib.rs:551-569 | `getPlayerData` with the aligned ordinals |
| VersusImplementation.View | implementation/src/lib.rs:261-266 | the whole state, initialized or not |
| VersusImplementation.Receive | implementation/src/lib.rs:208-569 | any entry point the contract does not declare is NoSuchEntrypoint and changes nothing |
| VersusImplementation.PlayerStateRoundTrip | implementation/src/lib.rs:37-41 | under either numbering, a player state's ordinal decodes back to it |
| VersusImplementation.UpdatePlayerStateParamsRoundTrip | implementation/src/lib.rs:93-98 | the forwarded parameters decode back to what the Implementation parsed |
| VersusImplementation.UpdateBattleResultParamsRoundTrip | implementation/src/lib.rs:102-107 | the same for battle results |
| VersusImplementation.InitializeOnce | implementation/src/lib.rs:223-227 | `initialize` succeeds at most once |
| VersusImplementation.AddressesAfterInitialize | implementation/src/lib.rs:232-235 | after `initialize(proxy, state)` the helper returns that pair |
| VersusImplementation.AdminRotation | implementation/src/lib.rs:465-483 | after `updateAdmin(A)` by the admin, A is admin and the addresses are unchanged; the old admin's `updateAdmin` and `pause` are refused with OnlyAdmin; A can hand the role on again |
| VersusImplementation.BusinessNeedsGuards | implementation/src/lib.rs:314-453 | a business entry point that returns or writes has passed all three guards, and its first call is the pause read, answered "not paused" |
| VersusImplementation.PausedBlocksBusiness | implementation/src/lib.rs:300-302 | a pause read answering true stops every business entry point with ContractPaused after that one read |
| VersusImplementation.ReceiveReadsFirst | implementation/src/lib.rs:314-569 | every entry point makes its reads before its only mutating call |
| VersusImplementation.AddressesArePermanent | implementation/src/lib.rs:218-238 | over any sequence of calls, the recorded Proxy and State never change once set |
| VersusImplementation.AdminChangesOnlyByAdmin | implementation/src/lib.rs:471-481 | the admin changes only through `updateAdmin` from the admin, which logs NewAdmin for the new one |
| VersusImplementation.AddPlayerGuardAsWritten | implementation/src/lib.rs:426-429 | as written, a player reported as not added is refused with AlreadyAdded and nothing is written; the corrected guard refuses the player reported as added |
| VersusImplementation.Implementation.constructor | implementation/src/lib.rs:190-206 | `contract_init` in place: the state of `Init` and its log record |
| VersusImplementation.Implementation.Initialize | implementation/src/lib.rs:218-238 | the in-place entry point equals its step function |
| VersusImplementation.Implementation.Read | implementation/src/lib.rs:174-182 | one read-only call recorded on the link; its result equals `ReadReply` of the host's reply |
| VersusImplementation.Implementation.Send | implementation/src/lib.rs:330-337 | one mutating call to the State recorded on the link; its result equals `Forward`'s |
| VersusImplementation.Implementation.CheckBusiness | implementation/src/lib.rs:320-326 | equals `BusinessGuards`, calls included |
| VersusImplementation.Implementation.UpdatePlayerState | implementation/src/lib.rs:314-354 | result and calls equal `UpdatePlayerStateStep` |
| VersusImplementation.Implementation.UpdateBattleResult | implementation/src/lib.rs:364-401 | result and calls equal `UpdateBattleResultStep` |
| VersusImplementation.Implementation.AddPlayer | implementation/src/lib.rs:411-453 | result and calls equal `AddPlayerStep` |
| VersusImplementation.Implementation.UpdateAdmin | implementation/src/lib.rs:465-483 | new state, result and log equal `UpdateAdminStep` |
| VersusImplementation.Implementation.SetPaused | implementation/src/lib.rs:493-540 | result and calls equal `SetPausedWith` |
| VersusImplementation.Implementation.GetPlayerData | implementation/src/lib.rs:551-569 | result and calls equal `GetPlayerDataStep` |
| VersusImplementation.Implementation.ViewData | implementation/src/lib.rs:261-266 | equals `View` on the current fields |
| VersusProxy.InitStep | proxy/src/lib.rs:182-199 | instantiation succeeds exactly when the parameter holds (implementation, state), with the origin account as admin; otherwise there is no instance |
| VersusProxy.OnlyImplementationGuard | proxy/src/lib.rs:310-320 | passes exactly when the sender is the recorded Implementation |
| VersusProxy.InitializeStep | proxy/src/lib.rs:215-255 | calls State `initialize(self, implementation)` then Implementation `initialize(self, state)`; either failing stops it with InvokeContractError; on success logs NewImplementation and NewAdmin; the Proxy's fields never change |
| VersusProxy.LogEventStep | proxy/src/lib.rs:159-174 | only the Implementation; the raw parameter is logged byte for byte as one record |
| VersusProxy.UpdateAdminStep | proxy/src/lib.rs:346-364 | only the admin; sets the parsed admin and logs NewAdmin |
| VersusProxy.UpdateImplementationStep | proxy/src/lib.rs:376-407 | only the admin; records the new Implementation and calls State `setImplementationAddress` with it; if that call fails nothing changes; otherwise logs NewImplementation |
| VersusProxy.FallbackOutcome | proxy/src/lib.rs:278-304 | the Implementation's return value comes back as is; a LogicReject is passed on with its reason and bytes; other failures become concordium_std's reject; no return value aborts |
| VersusProxy.FallbackTransparent | proxy/src/lib.rs:265-305 | apart from a missing return value, the Implementation's reply can be read back from the fallback's outcome exactly |
| VersusProxy.Receive | proxy/src/lib.rs:265-305 | any entry point not declared by the Proxy is forwarded as one call with the same name, parameter and amount; declared ones refuse an amount |
| VersusProxy.ForwardsToNewImplementation | proxy/src/lib.rs:376-407 | after a successful `updateImplementation(I)`, the fallback sends to I |
| VersusProxy.AdminRotation | proxy/src/lib.rs:346-364 | after `updateAdmin(A)`, the old admin's `updateAdmin` and `updateImplementation` are refused, and A can hand the role on again |
| VersusProxy.ReceiveChanges | proxy/src/lib.rs:346-407 | the State address never changes; the admin only through `updateAdmin` by the admin; the Implementation only through `updateImplementation` by the admin whose State call succeeded |
| VersusProxy.StateAddressIsPermanent | proxy/src/lib.rs:182-199 | over any run the State address stays fixed, and a run without the admin changes nothing |
| VersusProxy.Proxy.Instantiate | proxy/src/lib.rs:182-199 | a fresh Proxy with the fields of `InitStep`, or no instance when the parameter is refused |
| VersusProxy.Proxy.Initialize | proxy/src/lib.rs:215-255 | result, calls and log equal `InitializeStep` |
| VersusProxy.Proxy.LogEvent | proxy/src/lib.rs:159-174 | result and log equal `LogEventStep` |
| VersusProxy.Proxy.UpdateAdmin | proxy/src/lib.rs:346-364 | new state, result and log equal `UpdateAdminStep` |
| VersusProxy.Proxy.UpdateImplementation | proxy/src/lib.rs:376-407 | write, call, and undo on failure: equals `UpdateImplementationStep` |
| VersusProxy.Proxy.Fallback | proxy/src/lib.rs:265-305 | one forwarded call, outcome `FallbackOutcome` of its reply |
| VersusProxy.ProxyDataRoundTrip | proxy/src/lib.rs:47-54 | the serialized `StateProxy` (admin, then implementation and state addresses) decodes back to the same three fields |
| VersusProxy.Proxy.ViewData | proxy/src/lib.rs:329-334 | the bytes `view` returns decode back to the Proxy's admin, Implementation address and State address |
| Protocol.OneWriteLast | implementation/src/lib.rs:314-569 | every Implementation entry point makes at most one mutating call, and makes it last |
| Protocol.UpdatePlayerStateReachesState | implementation/src/lib.rs:314-354 | from the Proxy on an unpaused protocol, the State stores the same-named state and keeps the result; NotAdded is refused and nothing changes |
| Protocol.OrdinalsAsWrittenSwapStates | implementation/src/lib.rs:37-41 | with the declared ordinals, asking for Active stores Suspended, and asking for Suspended fails with InvokeContractError |
| Protocol.GetPlayerDataReadsBack | implementation/src/lib.rs:551-569 | aligned ordinals read back the State's record under its own names; declared ordinals read a stored Active as NotAdded; a player with no record fails with InvokeContractError under either |
| Protocol.PausedStateBlocksBusiness | implementation/src/lib.rs:284-304 | a paused State stops every business call with ContractPaused and stays as it was |
| Protocol.PauseReachesState | implementation/src/lib.rs:493-540 | `pause` / `unpause` by the Implementation's admin set the State's flag and nothing else |
| Protocol.AddPlayerAgainstDeclaredState | implementation/src/lib.rs:168-185 | against the State as declared, `addPlayer` always fails with InvokeContractError, with either guard, and writes nothing |
| Protocol.AddPlayerReachesState | implementation/src/lib.rs:411-453 | with `isAdded` present and the corrected guard, a new player gets the default record and an existing one is refused with AlreadyAdded |
| Protocol.AddPlayerAsWrittenInverted | implementation/src/lib.rs:426-429 | with the guard as written, a new player is refused with AlreadyAdded and only existing players get through, which changes nothing |
| Protocol.FallbackIsImplementation | proxy/src/lib.rs:265-305 | a call through the Proxy to an entry point it does not declare has exactly the effect and outcome of the Proxy calling the Implementation with the same name and parameter |
| Protocol.FallbackForgetsSender | proxy/src/lib.rs:278-283 | through the fallback, the user's identity does not reach the Implementation: any two senders have the same effect |
| Protocol.UserUpdatesPlayerState | proxy/src/lib.rs:265-305 | a user's `updatePlayerState` through the Proxy rewrites that player's state in the State and changes nothing else |
| Protocol.Bootstrap | proxy/src/lib.rs:215-255 | with a fresh Implementation and State, one `initialize` from any sender wires all three, and a second one is refused without effect |
| Protocol.UpgradeMovesState | proxy/src/lib.rs:376-407 | `updateImplementation` by the admin re-points Proxy and State, after which the State refuses every write from the old Implementation |
| Protocol.PauseEndToEnd | implementation/src/lib.rs:493-540 | after the admin's `pause`, every business call through the Proxy is rejected with ContractPaused's code and changes nothing; `unpause` restores the flag |

## Left out

- Logging failures: `logger.log` can fail with LogFull or LogMalformed. The model's logger always accepts the record, so those error paths are not modelled.
- Gas, energy and the chain's limits on parameter and return-value sizes are not modelled.
- Reentrancy is not modelled. A callee cannot call back into its caller during a call, and each entry point's replies are computed from the callee's state before the call. `OneWriteLast` shows the Implementation makes its reads before its single write, which is what makes this exact for the Implementation–State pair.
- Two identical calls within one entry point get identical replies, because the host is a function of the call. No entry point of the core makes the same call twice.
- Amounts: entry points not marked payable reject a call that carries CCD. The Proxy's own entry points model that as `NotPayable`. The composed hosts in `protocol.dfy` do not model it: a nonzero amount the fallback forwards would be refused by the Implementation, and the end-to-end lemmas are stated for calls with amount 0. Transfers of CCD are not modelled at all.
- VersusProxy.FallbackOutcome: the reject code concordium_std derives from a call failure other than LogicReject is not modelled; the outcome records the call error itself.
- The Proxy's fallback aborts when the Implementation returns no value (`unwrap_abort`). The model has this as the `Aborted` outcome, without any further effect on the chain.
- The schema derivations (`SchemaType`) and the commented-out `logEvent` calls in the Implementation are not part of the model.
- Test modules are not part of this model. The Proxy's and the Implementation's are commented out. The State's (`state/src/lib.rs:465-534`) is live but uses `init`, `receive` and `Error::YourError`, none of which the State defines.
- VersusProxy.InitStep: the reject code concordium_std gives a parameter that does not parse at instantiation is not modelled; that outcome is only "no instance".
- `Protocol` models a single Implementation instance. After an upgrade, the new Implementation's own behaviour is not composed in; `UpgradeMovesState` covers the re-pointing.

## Findings

| source | as written | input that shows it | evidently intended | confidence | as-written member | corrected member |
|---|---|---|---|---|---|---|
| implementation/src/lib.rs:426-429 | `ensure!(is_added(..), AlreadyAdded)` rejects when the player is NOT added | `addPlayer(P)` through the Proxy for a player P with no record | reject with AlreadyAdded when the player IS already added | high, not executed | Protocol.AddPlayerAsWrittenInverted | Protocol.AddPlayerReachesState |
| implementation/src/lib.rs:174-179 | the Implementation reads the State's `isAdded`, which the State does not declare (`state/src/lib.rs:186-463`) | any `addPlayer` through the Proxy on a wired, unpaused protocol | an `isAdded` entry point on the State answering whether a record exists | high, not executed | Protocol.AddPlayerAgainstDeclaredState | Protocol.AddPlayerReachesState |
| implementation/src/lib.rs:37-41 | the Implementation's `PlayerState` is NotAdded 0 / Active 1 / Suspended 2, while the State's is Active 0 / Suspended 1 (`state/src/lib.rs:29-32`) | `updatePlayerState(P, Active)` through the Proxy | the State stores the state under the same name | high, not executed | Protocol.OrdinalsAsWrittenSwapStates | Protocol.UpdatePlayerStateReachesState |

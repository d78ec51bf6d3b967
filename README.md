# Price feed and fiat fee filter

A Dafny model of two cooperating parts of the Dock runtime.

- **Price feed pallet** (`PriceFeed`, `price_feed.dfy`). It caches the DOCK/USD price read from an EVM oracle contract.
  - Its storage is four cells: `ContractConfigStore`, `Price`, `LastPriceUpdateAt` and `PriceUpdateFreq`. They are the fields of the class `PriceFeed.Pallet`, next to the deposited events.
  - A ghost log records every request the refresh path hands to the EVM runner. This is how the model states "no contract call" for `on_initialize` and the refresh.
  - The root-only setters, the per-block hook `on_initialize` and the refresh path are methods of the class. Each is proved against the pure functions `IsPriceStale`, `GetEvmCallResponse`, `DecodeEvmResponseToPrice` and `GetPriceFromContract`.
  - The object invariant `Valid()` says a stored price is never 0 and is always stored together with its block number.
  - `U256` is kept as four 64-bit limbs, as the runtime holds it. So `low_u32` really is "take the low limb". The lemma `LowU32IsTruncation` proves that this is the value modulo 2^32.
- **Fiat fee filter** (`FiatFilter`, `fiat_filter.dfy`), as its test runtime pins it down.
  - `TestCall` is the closed outer call: one variant per module.
  - `BaseFilter` is the runtime's call filter.
  - `PricingOf` is the catalogue: a flat price, or a price per byte of a measured size. `FeeFor` divides the USD cost by the rate, rounding down.
  - `Execute` is `execute_call` as a function of a `Ledger` value: the balances, the revocation registries, the revoked ids, and the calls handed to their modules. `Runtime.ExecuteCall` updates the same state in place and is proved equal to `Execute`.
  - The test drivers (`measure_fees`, the two revocation loops) are methods of `Runtime`.
- `Frame` (`frame.dfy`) holds the shared runtime vocabulary: fixed-width integers, `Origin`, `Pays`, the dispatch result, and saturating database weights.

Collaborators outside the two pallets become uninterpreted inputs. On the price feed side, the fields of `PriceFeed.Env` stand for the EVM `Runner::call`, the ABI decoder `eth_decode`, `gas_to_weight`, the database weights and the system block number. On the filter side, the USD prices are an uninterpreted record of positive numbers (`Prices`), and the rate is the `rate` field of `Runtime`.

Where the code and its documentation disagree, the model follows the code:

- A missing contract configuration fails with `ContractCallFailed`. The error enum also declares `ContractConfigNotFound`, but nothing raises it.
- The doc comments of the two `PriceProvider` accessors are swapped. `get_dock_usd_price` calls the contract; `optimized_get_dock_usd_price` reads storage.
- A refresh stores the system's block number (`system::block_number()`), not the block number handed to the hook. The two agree when the hook runs at the start of a block, and `RefreshTwiceAtSameBlock` assumes that.

## Model

| member | source | states |
|---|---|---|
| `PriceFeed.LowU32IsTruncation` | pallets/price_feed/src/lib.rs:234-239 | Taking the low 32 bits of a 256-bit integer gives its value modulo 2^32. |
| `PriceFeed.IsPriceStale` | pallets/price_feed/src/lib.rs:164-175 | A price can be stale only while refreshing is enabled and the current block is past the last update. Finding out costs one read or two. The exact test is in `NeverStaleWhenDisabled` and `StaleIffFrequencyElapsed`. |
| `PriceFeed.NeverStaleWhenDisabled` | pallets/price_feed/src/lib.rs:164-174 | With no frequency, or frequency 0, the price is never stale at any block, and finding out costs one read. |
| `PriceFeed.StaleIffFrequencyElapsed` | pallets/price_feed/src/lib.rs:165-171 | With frequency f > 0, the price is stale exactly when current >= last update + f. A missing last update counts as 0. Finding out costs two reads. |
| `PriceFeed.StaleIsMonotone` | pallets/price_feed/src/lib.rs:166-170 | A price stale at block h is stale at every later block, as long as storage is unchanged. |
| `PriceFeed.FreshAtRefreshBlock` | pallets/price_feed/src/lib.rs:166-170 | A price last updated at block h is not stale at h, for any frequency. |
| `PriceFeed.GetEvmCallResponse` | pallets/price_feed/src/lib.rs:197-221 | The call goes from the zero address, with value 0 and gas limit u64::MAX. A runner error propagates. A failed exit is `ContractCallFailed`. A successful exit gives the returned bytes and the gas used. |
| `PriceFeed.DecodeEvmResponseToPrice` | pallets/price_feed/src/lib.rs:223-244 | A decoded price is > 0. It is exactly the second decoded value modulo 2^32, which requires at least two values and an integer second one. Every failure is a pallet error. |
| `PriceFeed.DecodeErrorLadder` | pallets/price_feed/src/lib.rs:228-243 | A decode failure or fewer than 2 values gives `ResponseParsingFailed`. A non-integer second value gives `ResponseDoesNotHaveIntegerPrice`. An integer second value gives `PriceIsZero` when it is 0 modulo 2^32. Otherwise it gives `Ok` of that value modulo 2^32. |
| `PriceFeed.GetPriceFromContract` | pallets/price_feed/src/lib.rs:177-195 | No configuration gives `ContractCallFailed`. With a configuration, there are three outcomes. A runner error gives `Other`. A failed exit gives `ContractCallFailed`. A successful exit whose bytes decode gives that price, with the weight of one read plus the gas used (saturated to u64 and mapped to weight); a decoder error is passed through unchanged. Any price returned is > 0. |
| `PriceFeed.Pallet.constructor` | pallets/price_feed/src/lib.rs:78-83 | Genesis stores the given contract configuration and leaves every other cell empty. |
| `PriceFeed.Pallet.SetContractConfig` | pallets/price_feed/src/lib.rs:110-117 | A non-root origin gets `BadOrigin` and nothing changes. Root stores exactly the given configuration, deposits `ContractConfigSet`, and gets `Pays::No`. No other cell can change. |
| `PriceFeed.Pallet.SetUpdateFrequency` | pallets/price_feed/src/lib.rs:119-128 | A non-root origin gets `BadOrigin` and nothing changes. Root stores exactly the given frequency, deposits `UpdateFrequencySet`, and gets `Pays::No`. No other cell can change. |
| `PriceFeed.Pallet.UpdatePriceFromContract` | pallets/price_feed/src/lib.rs:154-161 | On failure the price, its block and the events are unchanged. On success the pallet stores the price and the system block number and deposits `PriceSet`; the weight gains two writes. The contract is called exactly when a configuration exists. |
| `PriceFeed.Pallet.UpdatePriceIfStale` | pallets/price_feed/src/lib.rs:141-152 | If the price is not stale: no cell is written, no event is deposited, no contract is called, and the result is the staleness weight. If it is stale: the refresh's outcome, with the weights added saturating. |
| `PriceFeed.Pallet.OnInitialize` | pallets/price_feed/src/lib.rs:130-136 | Never fails. A fresh price writes nothing, deposits no event and calls no contract. A failed refresh gives the fallback weight of two reads and leaves the price, its block and the events unchanged. A successful refresh stores the price and the system block number and deposits `PriceSet`. |
| `PriceFeed.Pallet.OptimizedGetDockUsdPrice` | pallets/price_feed/src/lib.rs:253-256 | Returns the stored price (None if never set) with the weight of one read, and reads only storage. Under the invariant the price is > 0. |
| `PriceFeed.Pallet.GetDockUsdPrice` | pallets/price_feed/src/lib.rs:248-251 | Returns a value exactly when reading from the contract succeeds, and that value is the price and weight of the read. The price is > 0. With no configuration it returns None. Nothing is written. |
| `PriceFeed.RefreshTwiceAtSameBlock` | pallets/price_feed/src/lib.rs:145-151 | Two hooks at the same block, with a contract that answers. The contract is called at most once, and the price is fresh afterwards. The second hook is a no-op: it costs only the staleness check, and the price, its block, the events and the requests are those one hook leaves. Only the refreshed cells, the events and the log can change. |
| `FiatFilter.PricingOf` | pallets/fiat_filter/src/tests.rs:46-58 | The filter prices exactly the calls the base filter rejects: every anchor, blob, DID, revocation and attestation call. Every other call is left unpriced. |
| `FiatFilter.BaseFilter` | pallets/fiat_filter/src/tests.rs:46-58 | The base filter admits exactly the system and balances calls. |
| `FiatFilter.FeeFor` | pallets/fiat_filter/src/tests.rs:238-531 | A call has a fee exactly when the filter prices it. The formulas are in `DidFees`, `SizePricedFees`, `RevocationFees` and `RegistryFees`. |
| `FiatFilter.FeeNeverExceedsCost` | pallets/fiat_filter/src/tests.rs:238-531 | No DOCK fee exceeds its call's USD cost, since the rate is at least 1. |
| `FiatFilter.DidFees` | pallets/fiat_filter/src/tests.rs:232-293 | DID `new`, `update_key` and `remove` each cost `PRICE_DID_OP / rate`. |
| `FiatFilter.SizePricedFees` | pallets/fiat_filter/src/tests.rs:306-343 | Anchor of len bytes: `len * PRICE_ANCHOR_OP_PER_BYTE / rate`. Attestation: `(8+1) * PRICE_ATTEST_OP_PER_BYTE / rate`. Blob of len bytes: `(64+len) * PRICE_BLOB_OP_PER_BYTE / rate`. |
| `FiatFilter.RevocationFees` | pallets/fiat_filter/src/tests.rs:389-398 | Revoking or unrevoking N ids costs `(32 + 32*N) * PRICE_REVOKE_REVOCATION_OP / rate`, including N = 0. |
| `FiatFilter.RegistryFees` | pallets/fiat_filter/src/tests.rs:497-531 | `new_registry` and `remove_registry` cost `PRICE_REVOKE_REGISTRY_OP / rate`. |
| `FiatFilter.PerByteFeeMonotone` | pallets/fiat_filter/src/tests.rs:389-398 | At the same per-byte price, a larger measured size never gives a smaller fee. |
| `FiatFilter.RevokeIsIdempotent` | pallets/fiat_filter/src/tests.rs:375-405 | Revoking the same ids again changes nothing, and every revoked id is afterwards in the registry. |
| `FiatFilter.UnrevokeClears` | pallets/fiat_filter/src/tests.rs:469-473 | After an unrevocation, none of its ids is revoked. Revoking first makes no difference to the result. |
| `FiatFilter.Handle` | pallets/fiat_filter/src/tests.rs:369-538 | The module behind a call never touches balances, and it records the call once. |
| `FiatFilter.Execute` | pallets/fiat_filter/src/tests.rs:191-206 | A call succeeds exactly when it is signed, priced by the filter, a rate is available, and the submitter's free balance covers the fee. The effects of each outcome are in the lemmas that follow. |
| `FiatFilter.SufficientBalanceSucceeds` | pallets/fiat_filter/src/tests.rs:191-206 | A signed call the filter prices, whose fee the balance covers, succeeds at `Pays::No` (the `assert_ok!` of every fee test). It costs exactly its fee, and the call is handled once. |
| `FiatFilter.FailureIsNoop` | pallets/fiat_filter/src/tests.rs:602-642 | Every failed `execute_call` leaves balances, registries, revocations and handled calls exactly as they were. |
| `FiatFilter.OnlySignedOriginsPay` | pallets/fiat_filter/src/tests.rs:683-702 | An unsigned or root origin fails with `BadOrigin`, charges 0, and changes nothing. |
| `FiatFilter.AdmittedCallIsUnexpected` | pallets/fiat_filter/src/tests.rs:704-720 | A call the base filter admits (for example a balance transfer) fails with `UnexpectedCall` and `Pays::Yes`, charges 0, and changes nothing. |
| `FiatFilter.InsufficientBalanceIsNoop` | pallets/fiat_filter/src/tests.rs:602-642 | A free balance below the fee fails with `InsufficientBalance`. The balance and all other state are unchanged, and the call is not handled. |
| `FiatFilter.SuccessChargesExactlyTheFee` | pallets/fiat_filter/src/tests.rs:198-205 | A successful call returns `Pays::No`. The signed submitter's balance drops by exactly the fee, no other balance moves, and the call is handled once. |
| `FiatFilter.RevokeTwiceChargesTwice` | pallets/fiat_filter/src/tests.rs:380-381 | The same revocation submitted twice succeeds both times and charges the fee twice. The second submission leaves the revocations as the first left them, every id revoked. |
| `FiatFilter.RevokeInTurnChargesTotal` | pallets/fiat_filter/src/tests.rs:369-408 | Submitting a revocation for each set of ids in turn from one account whose balance covers the sum of the fees: every submission succeeds, the account pays exactly that sum, no other balance or registry changes, nothing already revoked is lost, and every id of every set ends up revoked. |
| `FiatFilter.UnrevokeInTurnChargesTotal` | pallets/fiat_filter/src/tests.rs:410-476 | Each set of ids is revoked directly and then unrevoked through the filter, from one account whose balance covers the sum of the fees. Every unrevocation succeeds, and the account pays exactly that sum. No other balance or registry changes. The revocations become the old ones minus the cases' ids: those ids end up unrevoked, and every other pair keeps its status. |
| `FiatFilter.Runtime.Ext` | pallets/fiat_filter/src/tests.rs:121-149 | The test externalities: ALICE (account 100) holds 100_000_000_000, no registries, nothing revoked, and the provider's rate is 72. |
| `FiatFilter.Runtime.MakeFreeBalanceBe` | pallets/fiat_filter/src/tests.rs:606 | Sets exactly one account's free balance. |
| `FiatFilter.Runtime.Dispatch` | pallets/fiat_filter/src/tests.rs:443-449 | A direct module call updates the registries and revocations as the module does, and is recorded. |
| `FiatFilter.Runtime.ExecuteCall` | pallets/fiat_filter/src/tests.rs:191-197 | The new state and the result are exactly those of `Execute` on the old state. |
| `FiatFilter.Runtime.MeasureFees` | pallets/fiat_filter/src/tests.rs:191-206 | The measured balance drop is the call's fee, at `Pays::No`, when the call succeeds, and 0 when it fails. |
| `FiatFilter.Runtime.RevokeCases` | pallets/fiat_filter/src/tests.rs:369-408 | Revoking each set of ids in turn (a repeated set included): every call succeeds at `Pays::No` and is charged its fee. The balance drops by the sum of the fees, and every id ends up revoked. No other account's balance moves. The final state is the one `RevokeInTurn` computes. |
| `FiatFilter.Runtime.UnrevokeCases` | pallets/fiat_filter/src/tests.rs:410-476 | Revoking each set directly, then unrevoking it through the filter: every unrevocation succeeds and is charged its fee. The balance drops by the sum of the fees, and no other account's balance moves. The revocations become the old ones minus the cases' ids. The final state, `handled` included, is the one `UnrevokeInTurn` computes. |

## Left out

- `PriceFeed.Pallet.GetDockUsdPrice`: it calls the contract, but as a function it cannot add that request to the ghost log of requests. So the log shows only the refresh path's calls.
- `node/src/command.rs` (command line and chain-spec loading), the fee RPC and its runtime API declaration, and the generated documentation index are not part of this model. They hold no fee or price logic beyond a fixed mapping of error codes.
- The EVM, the ABI decoder in `util` and `gas_to_weight` are not part of this model. They are uninterpreted functions of `PriceFeed.Env`.
- `Token` has two cases: integers, meaning every token `into_int` accepts, and everything else. `ParamType` is only carried through.
- `sp_runtime::print` of a failed refresh in `on_initialize` is output only, and is not modelled.
- Weights are unbounded naturals. `saturating_add` and `DbWeight::reads`/`writes` saturate at u64::MAX. The plain `+` on weights is unbounded, so a u64 overflow there is not modelled.
- Block numbers are unbounded, so an overflow of `last_update + freq` is not modelled.
- `PriceFeed.Pallet.UpdatePriceFromContract`: it does not tie the stored block to the hook's block number, because the code stores the system block number. Only `RefreshTwiceAtSameBlock` assumes the two are equal.
- The fiat filter's own `lib.rs` is not part of this model. Its observable contract is taken from its tests, which leaves three choices to the model:
  - The checks run in the order origin, catalogue, rate, balance.
  - A missing rate fails with `PriceUnavailable`.
  - The rate is the `rate` field of `Runtime`, set at construction to the test provider's 72. The model does not fix which `PriceProvider` accessor supplies it.
- The commented-out tests of rate setting, u64 overflow and division by zero describe behaviour the code no longer has. The model omits them. The fiat cost is unbounded, and the rate is positive by type.
- The underlying modules (DID, anchor, blob, revocation, attestation) are not part of this model:
  - Their signature, key, policy, registry-existence and `last_modified` checks are not modelled. A call that the filter lets through is always handled.
  - Only the revocation module's effect on registries and revoked ids is modelled. The other modules' calls are only recorded as handled.
  - Removing a registry removes the registry only. The module's cleanup of its revoked ids is not modelled.
- Attestations carrying an IRI are not modelled. The tests fix the encoded size only for an attestation without one (8 + 1 bytes).
- The existential deposit of the balances module is not modelled. A debit succeeds whenever the free balance covers the fee.
- Balances are unbounded naturals rather than u64.
- Key generation, signing and `rand`, the externalities harness, and the `impl_outer_*` / `decl_*` macros are test or runtime plumbing. They are not modelled.

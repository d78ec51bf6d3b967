/**
 * The price-feed pallet: a cache of the DOCK/USD price, refreshed from an
 * EVM contract whenever the cached value is stale.
 *
 * The EVM runner, the ABI decoder and the gas-to-weight mapping are
 * collaborators outside the pallet; they enter the model as the
 * uninterpreted functions of an `Env`.
 */
module PriceFeed {
  import opened Frame

  const U32_MODULUS: nat := 0x1_0000_0000
  const LIMB_MODULUS: nat := 0x1_0000_0000_0000_0000

  /** An unsigned 256-bit integer as its four 64-bit limbs, least significant first. */
  datatype U256 = U256(l0: u64, l1: u64, l2: u64, l3: u64) {
    function Value(): nat {
      l0 + LIMB_MODULUS * (l1 + LIMB_MODULUS * (l2 + LIMB_MODULUS * l3))
    }

    /** `low_u32`: the least significant limb cast to `u32`. */
    function LowU32(): u32 {
      l0 % U32_MODULUS
    }
  }

  lemma MulNonnegative(a: int, b: int)
    requires 0 <= a && 0 <= b
    ensures 0 <= a * b
  {
  }

  /** Euclidean division has one remainder. */
  lemma DivModUnique(n: int, m: int, q: int, r: int)
    requires 0 < m && 0 <= r < m && n == m * q + r
    ensures n % m == r
  {
    var q' := n / m;
    if q' > q {
      MulNonnegative(m, q' - q - 1);
      assert false;
    } else if q' < q {
      MulNonnegative(m, q - q' - 1);
      assert false;
    }
  }

  /** Adding a multiple of `m * m` leaves the remainder modulo `m` unchanged. */
  lemma ModIgnoresHigherLimbs(low: nat, high: nat, m: nat)
    requires 0 < m
    ensures (low + (m * m) * high) % m == low % m
  {
    var q := low / m;
    assert low == m * q + low % m;
    assert (m * m) * high == m * (m * high);
    DivModUnique(low + (m * m) * high, m, q + m * high, low % m);
  }

  /** Taking the low 32 bits keeps the value modulo 2^32. */
  lemma LowU32IsTruncation(x: U256)
    ensures x.LowU32() == x.Value() % U32_MODULUS
  {
    var high := x.l1 + LIMB_MODULUS * (x.l2 + LIMB_MODULUS * x.l3);
    assert LIMB_MODULUS == U32_MODULUS * U32_MODULUS;
    assert x.Value() == x.l0 + (U32_MODULUS * U32_MODULUS) * high;
    ModIgnoresHigherLimbs(x.l0, high, U32_MODULUS);
  }

  /** A 20-byte EVM address. */
  type Address = s: seq<byte> | |s| == 20 witness [0, 0, 0, 0, 0, 0, 0, 0, 0, 0, 0, 0, 0, 0, 0, 0, 0, 0, 0, 0]

  /** The source of the read-only call: the zero address. */
  const DUMMY_SOURCE: Address := [0, 0, 0, 0, 0, 0, 0, 0, 0, 0, 0, 0, 0, 0, 0, 0, 0, 0, 0, 0]
  const ZERO_VALUE: nat := 0
  const GAS_LIMIT: u64 := U64_MAX

  /** An ABI type descriptor of the contract's return value. */
  datatype ParamType = UintType(bits: nat) | IntType(bits: nat) | OtherType

  /**
   * A decoded ABI value. `Int` stands for every token that `into_int`
   * accepts; `NonInt` for every other token.
   */
  datatype Token = Int(value: U256) | NonInt

  datatype ContractConfig = ContractConfig(
    address: Address,
    queryAbiEncoded: seq<byte>,
    returnValAbi: seq<ParamType>)

  const DEFAULT_CONTRACT_CONFIG := ContractConfig(DUMMY_SOURCE, [], [])

  datatype Error =
    | ContractConfigNotFound
    | ContractCallFailed
    | ResponseParsingFailed
    | ResponseDoesNotHaveIntegerPrice
    | PriceIsZero

  datatype Event = ContractConfigSet(config: ContractConfig) | PriceSet(price: u32) | UpdateFrequencySet(freq: u32)

  /** The arguments of one `Runner::call`. */
  datatype EvmRequest = EvmRequest(source: Address, target: Address, input: seq<byte>, value: nat, gasLimit: u64)

  /** What `Runner::call` gives back: a runner error, or an exit reason, the return bytes and the gas used. */
  datatype EvmCallResult = RunnerError | Executed(exitSucceeded: bool, returned: seq<byte>, usedGas: nat)

  /**
   * The collaborators the pallet calls: the system's current block number,
   * the database weights, the EVM runner, the ABI decoder and the
   * gas-to-weight mapping.
   */
  datatype Env = Env(
    blockNumber: nat,
    db: DbWeight,
    runner: EvmRequest -> EvmCallResult,
    decode: (seq<ParamType>, seq<byte>) -> Option<seq<Token>>,
    gasToWeight: u64 -> Weight)

  /** `unique_saturated_into` from `U256` to `u64`. */
  function SaturateToU64(n: nat): u64 {
    if n <= U64_MAX then n else U64_MAX
  }

  /**
   * Whether the cached price must be refreshed at `current`, and the weight
   * of finding out. A missing frequency counts as 0, which disables
   * refreshing; a missing last update counts as block 0.
   */
  function IsPriceStale(freq: Option<u32>, lastUpdate: Option<nat>, current: nat, db: DbWeight): (r: (bool, Weight))
    ensures r.0 ==> freq.GetOr(0) > 0 && lastUpdate.GetOr(0) < current
    ensures r.1 == db.Reads(1) || r.1 == db.Reads(2)
  {
    var f := freq.GetOr(0);
    if f > 0 then
      (current >= lastUpdate.GetOr(0) + f, db.Reads(2))
    else
      (false, db.Reads(1))
  }

  lemma NeverStaleWhenDisabled(freq: Option<u32>, lastUpdate: Option<nat>, current: nat, db: DbWeight)
    requires freq == None || freq == Some(0)
    ensures IsPriceStale(freq, lastUpdate, current, db) == (false, db.Reads(1))
  {
  }

  lemma StaleIffFrequencyElapsed(freq: u32, lastUpdate: Option<nat>, current: nat, db: DbWeight)
    requires freq > 0
    ensures IsPriceStale(Some(freq), lastUpdate, current, db).0 <==> current >= lastUpdate.GetOr(0) + freq
    ensures IsPriceStale(Some(freq), lastUpdate, current, db).1 == db.Reads(2)
  {
  }

  /** Once stale, the price stays stale at every later block until it is refreshed. */
  lemma StaleIsMonotone(freq: Option<u32>, lastUpdate: Option<nat>, h: nat, h': nat, db: DbWeight)
    requires h <= h'
    requires IsPriceStale(freq, lastUpdate, h, db).0
    ensures IsPriceStale(freq, lastUpdate, h', db).0
  {
  }

  /** A refresh recorded at block `h` is not stale at `h`, whatever the frequency. */
  lemma FreshAtRefreshBlock(freq: Option<u32>, h: nat, db: DbWeight)
    ensures !IsPriceStale(freq, Some(h), h, db).0
  {
  }

  function EvmRequestFor(contractAddr: Address, input: seq<byte>): EvmRequest {
    EvmRequest(DUMMY_SOURCE, contractAddr, input, ZERO_VALUE, GAS_LIMIT)
  }

  /** The response bytes and gas of a read-only call to `contractAddr`; a failed exit is `ContractCallFailed`. */
  function GetEvmCallResponse(contractAddr: Address, input: seq<byte>, runner: EvmRequest -> EvmCallResult)
    : (r: Result<(seq<byte>, nat), DispatchError<Error>>)
    ensures var info := runner(EvmRequestFor(contractAddr, input));
      && (info.RunnerError? ==> r == Err(Other))
      && (info.Executed? && !info.exitSucceeded ==> r == Err(Module(ContractCallFailed)))
      && (info.Executed? && info.exitSucceeded ==> r == Ok((info.returned, info.usedGas)))
  {
    var info := runner(EvmRequestFor(contractAddr, input));
    if info.RunnerError? then Err(Other)
    else if info.exitSucceeded then Ok((info.returned, info.usedGas))
    else Err(Module(ContractCallFailed))
  }

  /**
   * Decodes the contract's return value into a price: the second decoded
   * value, truncated to its low 32 bits, and never zero.
   */
  function DecodeEvmResponseToPrice(
    returnValAbi: seq<ParamType>,
    returnVal: seq<byte>,
    decode: (seq<ParamType>, seq<byte>) -> Option<seq<Token>>)
    : (r: Result<u32, DispatchError<Error>>)
    ensures r.Ok? ==> 0 < r.value
    ensures r.Ok? ==> var decoded := decode(returnValAbi, returnVal);
      && decoded.Some? && |decoded.value| >= 2 && decoded.value[1].Int?
      && r.value == decoded.value[1].value.Value() % U32_MODULUS
    ensures r.Err? ==> r.error.Module?
  {
    var decoded := decode(returnValAbi, returnVal);
    if decoded.None? || |decoded.value| < 2 then
      Err(Module(ResponseParsingFailed))
    else if !decoded.value[1].Int? then
      Err(Module(ResponseDoesNotHaveIntegerPrice))
    else
      var price := decoded.value[1].value.LowU32();
      LowU32IsTruncation(decoded.value[1].value);
      if price == 0 then Err(Module(PriceIsZero)) else Ok(price)
  }

  /** Every way the decoder can fail, in the order it checks them, and that it succeeds otherwise. */
  lemma DecodeErrorLadder(
    returnValAbi: seq<ParamType>,
    returnVal: seq<byte>,
    decode: (seq<ParamType>, seq<byte>) -> Option<seq<Token>>)
    ensures var decoded := decode(returnValAbi, returnVal);
      var r := DecodeEvmResponseToPrice(returnValAbi, returnVal, decode);
      && (decoded.None? || |decoded.value| < 2 ==> r == Err(Module(ResponseParsingFailed)))
      && (decoded.Some? && |decoded.value| >= 2 && decoded.value[1].NonInt? ==>
            r == Err(Module(ResponseDoesNotHaveIntegerPrice)))
      && (decoded.Some? && |decoded.value| >= 2 && decoded.value[1].Int? ==>
            var v := decoded.value[1].value.Value() % U32_MODULUS;
            r == (if v == 0 then Err(Module(PriceIsZero)) else Ok(v)))
  {
    var decoded := decode(returnValAbi, returnVal);
    if decoded.Some? && |decoded.value| >= 2 && decoded.value[1].Int? {
      LowU32IsTruncation(decoded.value[1].value);
    }
  }

  /**
   * Reads the price from the configured contract, with the weight of doing
   * so. A missing configuration is reported as `ContractCallFailed`.
   */
  function GetPriceFromContract(config: Option<ContractConfig>, env: Env): (r: Result<(u32, Weight), DispatchError<Error>>)
    ensures config.None? ==> r == Err(Module(ContractCallFailed))
    ensures r.Ok? ==> 0 < r.value.0
    ensures r.Ok? ==>
      var info := env.runner(EvmRequestFor(config.value.address, config.value.queryAbiEncoded));
      && info.Executed? && info.exitSucceeded
      && Ok(r.value.0) == DecodeEvmResponseToPrice(config.value.returnValAbi, info.returned, env.decode)
      && r.value.1 == env.db.Reads(1) + env.gasToWeight(SaturateToU64(info.usedGas))
    ensures config.Some? ==>
      var info := env.runner(EvmRequestFor(config.value.address, config.value.queryAbiEncoded));
      && (info.RunnerError? ==> r == Err(Other))
      && (info.Executed? && !info.exitSucceeded ==> r == Err(Module(ContractCallFailed)))
      && (info.Executed? && info.exitSucceeded ==>
            var decoded := DecodeEvmResponseToPrice(config.value.returnValAbi, info.returned, env.decode);
            && (decoded.Err? ==> r == Err(decoded.error))
            && (decoded.Ok? ==>
                  r == Ok((decoded.value, env.db.Reads(1) + env.gasToWeight(SaturateToU64(info.usedGas))))))
  {
    if config.None? then Err(Module(ContractCallFailed))
    else
      var response := GetEvmCallResponse(config.value.address, config.value.queryAbiEncoded, env.runner);
      if response.Err? then Err(response.error)
      else
        var (evmResp, usedGas) := response.value;
        var price := DecodeEvmResponseToPrice(config.value.returnValAbi, evmResp, env.decode);
        if price.Err? then Err(price.error)
        else Ok((price.value, env.db.Reads(1) + env.gasToWeight(SaturateToU64(usedGas))))
  }

  /** The EVM requests that reading the price under `config` makes: none without a configuration. */
  function RequestsFor(config: Option<ContractConfig>): seq<EvmRequest> {
    if config.Some? then [EvmRequestFor(config.value.address, config.value.queryAbiEncoded)] else []
  }

  /** The storage of the pallet, the events it deposited and the EVM calls it made. */
  class Pallet {
    var contractConfig: Option<ContractConfig>
    var price: Option<u32>
    var lastPriceUpdateAt: Option<nat>
    var priceUpdateFreq: Option<u32>
    var events: seq<Event>
    /** Every request the refresh path handed to the EVM runner, in order. */
    ghost var evmRequests: seq<EvmRequest>

    /** A stored price is never zero, and it is stored together with its block. */
    ghost predicate Valid()
      reads this
    {
      && (price.Some? ==> price.value > 0)
      && (price.Some? <==> lastPriceUpdateAt.Some?)
    }

    /** Genesis puts the configured contract; every other cell starts empty. */
    constructor (genesisConfig: ContractConfig)
      ensures Valid()
      ensures contractConfig == Some(genesisConfig)
      ensures price == None && lastPriceUpdateAt == None && priceUpdateFreq == None
      ensures events == [] && evmRequests == []
    {
      contractConfig := Some(genesisConfig);
      price, lastPriceUpdateAt, priceUpdateFreq := None, None, None;
      events, evmRequests := [], [];
    }

    /** `set_contract_config`: root only, free of charge. */
    method SetContractConfig(origin: Origin, config: ContractConfig) returns (r: DispatchResultWithPostInfo<Error>)
      requires Valid()
      modifies this`contractConfig, this`events
      ensures Valid()
      ensures origin != Root ==>
        r == BadOriginResult() && contractConfig == old(contractConfig) && events == old(events)
      ensures origin == Root ==>
        r == Ok(PostInfo(No)) && contractConfig == Some(config) && events == old(events) + [ContractConfigSet(config)]
    {
      if origin != Root {
        return BadOriginResult();
      }
      contractConfig := Some(config);
      events := events + [ContractConfigSet(config)];
      r := Ok(PostInfo(No));
    }

    /** `set_update_frequency`: root only, free of charge. */
    method SetUpdateFrequency(origin: Origin, freq: u32) returns (r: DispatchResultWithPostInfo<Error>)
      requires Valid()
      modifies this`priceUpdateFreq, this`events
      ensures Valid()
      ensures origin != Root ==>
        r == BadOriginResult() && priceUpdateFreq == old(priceUpdateFreq) && events == old(events)
      ensures origin == Root ==>
        r == Ok(PostInfo(No)) && priceUpdateFreq == Some(freq) && events == old(events) + [UpdateFrequencySet(freq)]
    {
      if origin != Root {
        return BadOriginResult();
      }
      priceUpdateFreq := Some(freq);
      events := events + [UpdateFrequencySet(freq)];
      r := Ok(PostInfo(No));
    }

    /**
     * `update_price_from_contract`: stores the contract's price and the
     * system's block number, or fails having written nothing.
     */
    method UpdatePriceFromContract(env: Env) returns (r: Result<Weight, DispatchError<Error>>)
      requires Valid()
      modifies this`price, this`lastPriceUpdateAt, this`events, this`evmRequests
      ensures Valid()
      ensures evmRequests == old(evmRequests) + RequestsFor(contractConfig)
      ensures var got := GetPriceFromContract(contractConfig, env);
        && (got.Err? ==>
              r == Err(got.error) && price == old(price) && lastPriceUpdateAt == old(lastPriceUpdateAt)
              && events == old(events))
        && (got.Ok? ==>
              r == Ok(got.value.1 + env.db.Writes(2)) && price == Some(got.value.0)
              && lastPriceUpdateAt == Some(env.blockNumber) && events == old(events) + [PriceSet(got.value.0)])
    {
      evmRequests := evmRequests + RequestsFor(contractConfig);
      var got := GetPriceFromContract(contractConfig, env);
      if got.Err? {
        return Err(got.error);
      }
      var (p, weight) := got.value;
      price := Some(p);
      lastPriceUpdateAt := Some(env.blockNumber);
      events := events + [PriceSet(p)];
      r := Ok(weight + env.db.Writes(2));
    }

    /** `update_price_if_stale`: refreshes only a stale price; a fresh one costs no contract call and no write. */
    method UpdatePriceIfStale(current: nat, env: Env) returns (r: Result<Weight, DispatchError<Error>>)
      requires Valid()
      modifies this`price, this`lastPriceUpdateAt, this`events, this`evmRequests
      ensures Valid()
      ensures var (stale, weight) := IsPriceStale(old(priceUpdateFreq), old(lastPriceUpdateAt), current, env.db);
        var got := GetPriceFromContract(contractConfig, env);
        && (!stale ==>
              r == Ok(weight) && price == old(price) && lastPriceUpdateAt == old(lastPriceUpdateAt)
              && events == old(events) && evmRequests == old(evmRequests))
        && (stale && got.Err? ==>
              r == Err(got.error) && price == old(price) && lastPriceUpdateAt == old(lastPriceUpdateAt)
              && events == old(events))
        && (stale && got.Ok? ==>
              r == Ok(SaturatingAdd(weight, got.value.1 + env.db.Writes(2)))
              && price == Some(got.value.0) && lastPriceUpdateAt == Some(env.blockNumber)
              && events == old(events) + [PriceSet(got.value.0)])
      ensures IsPriceStale(old(priceUpdateFreq), old(lastPriceUpdateAt), current, env.db).0 ==>
        evmRequests == old(evmRequests) + RequestsFor(contractConfig)
    {
      var (stale, weight) := IsPriceStale(priceUpdateFreq, lastPriceUpdateAt, current, env.db);
      if stale {
        var updated := UpdatePriceFromContract(env);
        if updated.Err? {
          return Err(updated.error);
        }
        r := Ok(SaturatingAdd(weight, updated.value));
      } else {
        r := Ok(weight);
      }
    }

    /** `on_initialize`: never fails; a failed refresh is reported as the weight of two reads. */
    method OnInitialize(current: nat, env: Env) returns (weight: Weight)
      requires Valid()
      modifies this`price, this`lastPriceUpdateAt, this`events, this`evmRequests
      ensures Valid()
      ensures var (stale, staleWeight) := IsPriceStale(old(priceUpdateFreq), old(lastPriceUpdateAt), current, env.db);
        var got := GetPriceFromContract(contractConfig, env);
        && (!stale ==>
              weight == staleWeight && price == old(price) && lastPriceUpdateAt == old(lastPriceUpdateAt)
              && events == old(events) && evmRequests == old(evmRequests))
        && (stale && got.Err? ==>
              weight == env.db.Reads(2) && price == old(price) && lastPriceUpdateAt == old(lastPriceUpdateAt)
              && events == old(events))
        && (stale && got.Ok? ==>
              weight == SaturatingAdd(staleWeight, got.value.1 + env.db.Writes(2))
              && price == Some(got.value.0) && lastPriceUpdateAt == Some(env.blockNumber)
              && events == old(events) + [PriceSet(got.value.0)])
      ensures IsPriceStale(old(priceUpdateFreq), old(lastPriceUpdateAt), current, env.db).0 ==>
        evmRequests == old(evmRequests) + RequestsFor(contractConfig)
    {
      var updated := UpdatePriceIfStale(current, env);
      weight := if updated.Ok? then updated.value else env.db.Reads(2);
    }

    /** The price the pallet has stored, read with one database read; no contract is called. */
    function OptimizedGetDockUsdPrice(db: DbWeight): (r: Option<(u32, Weight)>)
      reads this
      ensures r.Some? <==> price.Some?
      ensures r.Some? ==> r.value == (price.value, db.Reads(1))
      ensures Valid() && r.Some? ==> r.value.0 > 0
    {
      if price.Some? then Some((price.value, db.Reads(1))) else None
    }

    /** The price read afresh from the contract, without writing it to storage. */
    function GetDockUsdPrice(env: Env): (r: Option<(u32, Weight)>)
      reads this
      ensures contractConfig.None? ==> r.None?
      ensures r.Some? ==> r.value.0 > 0
      ensures r.Some? <==> GetPriceFromContract(contractConfig, env).Ok?
      ensures r.Some? ==> r.value == GetPriceFromContract(contractConfig, env).value
    {
      var got := GetPriceFromContract(contractConfig, env);
      if got.Ok? then Some(got.value) else None
    }
  }

  /**
   * Two `on_initialize` hooks at the same block, the system's block number
   * being that block: when the contract answers, the contract is called at
   * most once, the price is fresh afterwards, and the second hook is a no-op
   * costing only the staleness check: the state is the one a single hook
   * leaves.
   */
  method RefreshTwiceAtSameBlock(pallet: Pallet, current: nat, env: Env) returns (w1: Weight, w2: Weight)
    requires pallet.Valid() && env.blockNumber == current
    modifies pallet`price, pallet`lastPriceUpdateAt, pallet`events, pallet`evmRequests
    ensures pallet.Valid()
    ensures var got := GetPriceFromContract(pallet.contractConfig, env);
      var stale := IsPriceStale(pallet.priceUpdateFreq, old(pallet.lastPriceUpdateAt), current, env.db).0;
      got.Ok? ==>
        && |pallet.evmRequests| <= |old(pallet.evmRequests)| + 1
        && !IsPriceStale(pallet.priceUpdateFreq, pallet.lastPriceUpdateAt, current, env.db).0
        && pallet.price == (if stale then Some(got.value.0) else old(pallet.price))
        && pallet.lastPriceUpdateAt == (if stale then Some(current) else old(pallet.lastPriceUpdateAt))
        && pallet.events == old(pallet.events) + (if stale then [PriceSet(got.value.0)] else [])
        && pallet.evmRequests == old(pallet.evmRequests) + (if stale then RequestsFor(pallet.contractConfig) else [])
        && w2 == IsPriceStale(pallet.priceUpdateFreq, pallet.lastPriceUpdateAt, current, env.db).1
  {
    w1 := pallet.OnInitialize(current, env);
    if GetPriceFromContract(pallet.contractConfig, env).Ok? {
      FreshAtRefreshBlock(pallet.priceUpdateFreq, current, env.db);
    }
    w2 := pallet.OnInitialize(current, env);
  }
}

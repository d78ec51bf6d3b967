/**
 * The fiat fee filter of the test runtime: calls to the DID, anchor, blob,
 * revocation and attestation modules are reachable only through
 * `execute_call`, which prices them in USD, converts the price to DOCK with
 * the rate of the price provider, debits the signed submitter and tells the
 * generic fee machinery that the call is already paid for.
 */
module FiatFilter {
  import opened Frame

  type Bytes32 = s: seq<byte> | |s| == 32
    witness [0, 0, 0, 0, 0, 0, 0, 0, 0, 0, 0, 0, 0, 0, 0, 0, 0, 0, 0, 0, 0, 0, 0, 0, 0, 0, 0, 0, 0, 0, 0, 0]

  type Did = Bytes32
  type BlobId = Bytes32
  type RegistryId = Bytes32
  type RevokeId = Bytes32

  /** Calls of the DID module; key material and signatures are not modelled. */
  datatype DidCall = NewDid(did: Did) | UpdateKey(did: Did) | RemoveDid(did: Did)

  datatype AnchorCall = Deploy(data: seq<byte>)

  datatype Blob = Blob(id: BlobId, blob: seq<byte>, author: Did)
  datatype BlobCall = NewBlob(blob: Blob)

  /** A revocation registry: the controlling DIDs of a `OneOf` policy and the add-only flag. */
  datatype Registry = Registry(policy: set<Did>, addOnly: bool)

  /** Calls of the revocation module; the proofs they carry are not modelled. */
  datatype RevokeCall =
    | Revoke(registryId: RegistryId, revokeIds: set<RevokeId>)
    | UnRevoke(registryId: RegistryId, revokeIds: set<RevokeId>)
    | NewRegistry(registryId: RegistryId, registry: Registry)
    | RemoveRegistry(registryId: RegistryId)

  /** A claim whose attestation has the given priority and no IRI. */
  datatype AttestCall = SetClaim(attester: Did, priority: u64)

  datatype SystemCall = Remark(remark: seq<byte>)
  datatype BalanceCall = Transfer(dest: AccountId, value: u64)

  /** The outer call of the test runtime, one variant per module. */
  datatype TestCall =
    | DidMod(didCall: DidCall)
    | AnchorMod(anchorCall: AnchorCall)
    | BlobMod(blobCall: BlobCall)
    | RevokeMod(revokeCall: RevokeCall)
    | AttestMod(attestCall: AttestCall)
    | SystemMod(systemCall: SystemCall)
    | BalanceMod(balanceCall: BalanceCall)

  /** The runtime's call filter: the priced modules cannot be called directly. */
  predicate BaseFilter(call: TestCall): (r: bool)
    ensures r <==> call.SystemMod? || call.BalanceMod?
  {
    match call
    case AnchorMod(_) => false
    case BlobMod(_) => false
    case DidMod(_) => false
    case RevokeMod(_) => false
    case AttestMod(_) => false
    case _ => true
  }

  type Price = x: nat | 0 < x witness 1

  /** The USD prices of the catalogue, left uninterpreted. */
  datatype Prices = Prices(
    didOp: Price,
    anchorOpPerByte: Price,
    attestOpPerByte: Price,
    blobOpPerByte: Price,
    revokeRevocationOp: Price,
    revokeRegistryOp: Price)

  /** A DOCK/USD rate, in USD/1000 per DOCK; the price provider never yields 0. */
  type Rate = x: u32 | 0 < x witness 1

  /** The account the tests sign with. */
  const ALICE: AccountId := 100

  /** The rate of the test price provider, about 0.072 USD per DOCK. */
  const RATE_DOCK_USD: Rate := 72

  /** The registry id a revocation names. */
  const REVOCATION_OVERHEAD: nat := 32
  /** Each revoked id. */
  const REVOKE_ID_SIZE: nat := 32
  /** The blob's id and its author's DID. */
  const BLOB_OVERHEAD: nat := 64
  /** The attestation's `u64` priority and the tag of its absent IRI. */
  const ATTEST_SIZE: nat := 8 + 1

  /** A catalogue entry: a flat USD price, or a price per byte of a measured size. */
  datatype Pricing = Flat(price: nat) | PerByte(size: nat, pricePerByte: nat)

  function FiatCost(pricing: Pricing): nat {
    match pricing
    case Flat(price) => price
    case PerByte(size, pricePerByte) => size * pricePerByte
  }

  function RevocationSize(ids: set<RevokeId>): nat {
    REVOCATION_OVERHEAD + REVOKE_ID_SIZE * |ids|
  }

  /** The catalogue: how each call the filter accepts is priced. */
  function PricingOf(call: TestCall, prices: Prices): (r: Option<Pricing>)
    ensures r.Some? <==> !BaseFilter(call)
  {
    match call
    case DidMod(_) => Some(Flat(prices.didOp))
    case AnchorMod(Deploy(data)) => Some(PerByte(|data|, prices.anchorOpPerByte))
    case AttestMod(_) => Some(PerByte(ATTEST_SIZE, prices.attestOpPerByte))
    case BlobMod(NewBlob(blob)) => Some(PerByte(BLOB_OVERHEAD + |blob.blob|, prices.blobOpPerByte))
    case RevokeMod(Revoke(_, ids)) => Some(PerByte(RevocationSize(ids), prices.revokeRevocationOp))
    case RevokeMod(UnRevoke(_, ids)) => Some(PerByte(RevocationSize(ids), prices.revokeRevocationOp))
    case RevokeMod(NewRegistry(_, _)) => Some(Flat(prices.revokeRegistryOp))
    case RevokeMod(RemoveRegistry(_)) => Some(Flat(prices.revokeRegistryOp))
    case SystemMod(_) => None
    case BalanceMod(_) => None
  }

  lemma MulMonotone(a: nat, b: nat, c: nat)
    requires a <= b
    ensures a * c <= b * c
  {
    assert b * c == a * c + (b - a) * c;
  }

  /** Dividing by a positive divisor never makes a number larger. */
  lemma DivNoLarger(x: nat, d: nat)
    requires 0 < d
    ensures x / d <= x
  {
    MulMonotone(1, d, x / d);
    assert x == d * (x / d) + x % d;
  }

  /** The DOCK fee of a call: its USD cost divided by the rate, rounded down. */
  function FeeFor(call: TestCall, prices: Prices, rate: Rate): (r: Option<nat>)
    ensures r.Some? <==> !BaseFilter(call)
  {
    var pricing := PricingOf(call, prices);
    if pricing.Some? then Some(FiatCost(pricing.value) / rate) else None
  }

  /** With a rate of at least one USD/1000 per DOCK, no fee exceeds the call's USD cost. */
  lemma FeeNeverExceedsCost(call: TestCall, prices: Prices, rate: Rate)
    requires !BaseFilter(call)
    ensures FeeFor(call, prices, rate).value <= FiatCost(PricingOf(call, prices).value)
  {
    DivNoLarger(FiatCost(PricingOf(call, prices).value), rate);
  }

  /** Every DID operation costs the flat DID price. */
  lemma DidFees(call: TestCall, p: Prices, rate: Rate)
    requires call.DidMod?
    ensures FeeFor(call, p, rate) == Some(p.didOp / rate)
  {
  }

  /** Anchors cost per byte of data, attestations per byte of 8 + 1, blobs per byte of 64 plus the data. */
  lemma SizePricedFees(call: TestCall, p: Prices, rate: Rate)
    ensures call.AnchorMod? ==>
      FeeFor(call, p, rate) == Some(|call.anchorCall.data| * p.anchorOpPerByte / rate)
    ensures call.AttestMod? ==> FeeFor(call, p, rate) == Some((8 + 1) * p.attestOpPerByte / rate)
    ensures call.BlobMod? ==>
      FeeFor(call, p, rate) == Some((64 + |call.blobCall.blob.blob|) * p.blobOpPerByte / rate)
  {
  }

  /** Revoking or unrevoking N ids costs 32 + 32 * N bytes at the revocation price, N = 0 included. */
  lemma RevocationFees(reg: RegistryId, ids: set<RevokeId>, p: Prices, rate: Rate)
    ensures FeeFor(RevokeMod(Revoke(reg, ids)), p, rate) == Some((32 + 32 * |ids|) * p.revokeRevocationOp / rate)
    ensures FeeFor(RevokeMod(UnRevoke(reg, ids)), p, rate) == Some((32 + 32 * |ids|) * p.revokeRevocationOp / rate)
  {
  }

  /** Creating or removing a registry costs the flat registry price. */
  lemma RegistryFees(reg: RegistryId, registry: Registry, p: Prices, rate: Rate)
    ensures FeeFor(RevokeMod(NewRegistry(reg, registry)), p, rate) == Some(p.revokeRegistryOp / rate)
    ensures FeeFor(RevokeMod(RemoveRegistry(reg)), p, rate) == Some(p.revokeRegistryOp / rate)
  {
  }

  lemma DivMonotone(a: nat, b: nat, d: nat)
    requires a <= b && 0 < d
    ensures a / d <= b / d
  {
    if a / d > b / d {
      MulMonotone(b / d + 1, a / d, d);
      assert false;
    }
  }

  /** A larger payload of the same per-byte price never costs less. */
  lemma PerByteFeeMonotone(c1: TestCall, c2: TestCall, p: Prices, rate: Rate)
    requires PricingOf(c1, p).Some? && PricingOf(c1, p).value.PerByte?
    requires PricingOf(c2, p).Some? && PricingOf(c2, p).value.PerByte?
    requires PricingOf(c1, p).value.pricePerByte == PricingOf(c2, p).value.pricePerByte
    requires PricingOf(c1, p).value.size <= PricingOf(c2, p).value.size
    ensures FeeFor(c1, p, rate).value <= FeeFor(c2, p, rate).value
  {
    var q := PricingOf(c1, p).value.pricePerByte;
    MulMonotone(PricingOf(c1, p).value.size, PricingOf(c2, p).value.size, q);
    DivMonotone(FiatCost(PricingOf(c1, p).value), FiatCost(PricingOf(c2, p).value), rate);
  }

  datatype Error = UnexpectedCall | PriceUnavailable | InsufficientBalance

  /** The state the filter and the modules behind it touch. */
  datatype Ledger = Ledger(
    balances: map<AccountId, nat>,
    registries: map<RegistryId, Registry>,
    revocations: set<(RegistryId, RevokeId)>,
    handled: seq<TestCall>)
  {
    /** An account without an entry has a free balance of 0. */
    function FreeBalance(who: AccountId): nat {
      if who in balances then balances[who] else 0
    }
  }

  function Revoked(revocations: set<(RegistryId, RevokeId)>, reg: RegistryId, ids: set<RevokeId>)
    : set<(RegistryId, RevokeId)>
  {
    revocations + set id | id in ids :: (reg, id)
  }

  function Unrevoked(revocations: set<(RegistryId, RevokeId)>, reg: RegistryId, ids: set<RevokeId>)
    : set<(RegistryId, RevokeId)>
  {
    revocations - set id | id in ids :: (reg, id)
  }

  /** Revoking an id that is already revoked changes nothing further. */
  lemma RevokeIsIdempotent(revocations: set<(RegistryId, RevokeId)>, reg: RegistryId, ids: set<RevokeId>)
    ensures Revoked(Revoked(revocations, reg, ids), reg, ids) == Revoked(revocations, reg, ids)
    ensures forall id :: id in ids ==> (reg, id) in Revoked(revocations, reg, ids)
  {
  }

  /** After an unrevocation none of its ids is revoked, whatever was revoked before. */
  lemma UnrevokeClears(revocations: set<(RegistryId, RevokeId)>, reg: RegistryId, ids: set<RevokeId>)
    ensures forall id :: id in ids ==> (reg, id) !in Unrevoked(revocations, reg, ids)
    ensures Unrevoked(Revoked(revocations, reg, ids), reg, ids) == Unrevoked(revocations, reg, ids)
  {
  }

  /**
   * What the module behind a call does to the ledger once the call is let
   * through. Only the revocation module's effect on registries and
   * revocations is modelled; every handled call is recorded.
   */
  function Handle(s: Ledger, call: TestCall): (r: Ledger)
    ensures r.balances == s.balances && r.handled == s.handled + [call]
  {
    var s' := s.(handled := s.handled + [call]);
    match call
    case RevokeMod(Revoke(reg, ids)) => s'.(revocations := Revoked(s.revocations, reg, ids))
    case RevokeMod(UnRevoke(reg, ids)) => s'.(revocations := Unrevoked(s.revocations, reg, ids))
    case RevokeMod(NewRegistry(reg, registry)) => s'.(registries := s.registries[reg := registry])
    case RevokeMod(RemoveRegistry(reg)) => s'.(registries := s.registries - {reg})
    case _ => s'
  }

  function Rejected(e: Error): DispatchResultWithPostInfo<Error> {
    Err(ErrorWithPostInfo(Module(e), DEFAULT_POST_INFO))
  }

  /**
   * `execute_call` as a function of the ledger: the signed submitter pays
   * the call's fee and the call is handled, or the ledger is left as it was.
   */
  function Execute(s: Ledger, origin: Origin, call: TestCall, prices: Prices, rate: Option<Rate>)
    : (r: (DispatchResultWithPostInfo<Error>, Ledger))
    ensures r.0.Ok? <==>
      && origin.Signed? && !BaseFilter(call) && rate.Some?
      && s.FreeBalance(origin.who) >= FeeFor(call, prices, rate.value).value
  {
    if !origin.Signed? then (BadOriginResult(), s)
    else if PricingOf(call, prices).None? then (Rejected(UnexpectedCall), s)
    else if rate.None? then (Rejected(PriceUnavailable), s)
    else
      var who, fee := origin.who, FeeFor(call, prices, rate.value).value;
      if s.FreeBalance(who) < fee then (Rejected(InsufficientBalance), s)
      else (Ok(PostInfo(No)), Handle(s.(balances := s.balances[who := s.FreeBalance(who) - fee]), call))
  }

  /** Every failure leaves the ledger exactly as it was. */
  lemma FailureIsNoop(s: Ledger, origin: Origin, call: TestCall, prices: Prices, rate: Option<Rate>)
    ensures Execute(s, origin, call, prices, rate).0.Err? ==> Execute(s, origin, call, prices, rate).1 == s
  {
  }

  /** An unsigned or root origin is rejected and charged nothing. */
  lemma OnlySignedOriginsPay(s: Ledger, origin: Origin, call: TestCall, prices: Prices, rate: Option<Rate>)
    requires !origin.Signed?
    ensures Execute(s, origin, call, prices, rate) == (Err(ErrorWithPostInfo(BadOrigin, PostInfo(Yes))), s)
  {
  }

  /** A call the base filter admits is not the filter's to price: it fails, charges nothing and still pays the generic fee. */
  lemma AdmittedCallIsUnexpected(s: Ledger, who: AccountId, call: TestCall, prices: Prices, rate: Option<Rate>)
    requires BaseFilter(call)
    ensures Execute(s, Signed(who), call, prices, rate)
      == (Err(ErrorWithPostInfo(Module(UnexpectedCall), PostInfo(Yes))), s)
  {
  }

  /** A free balance below the fee rejects the call, charges nothing and leaves the call unhandled. */
  lemma InsufficientBalanceIsNoop(s: Ledger, who: AccountId, call: TestCall, prices: Prices, rate: Rate)
    requires !BaseFilter(call)
    requires s.FreeBalance(who) < FeeFor(call, prices, rate).value
    ensures Execute(s, Signed(who), call, prices, Some(rate))
      == (Err(ErrorWithPostInfo(Module(InsufficientBalance), PostInfo(Yes))), s)
  {
  }

  /**
   * A call that succeeds is paid for here and waived by the generic fee
   * machinery; the submitter's balance drops by exactly the fee, no other
   * balance moves, and the call is handled once.
   */
  lemma SuccessChargesExactlyTheFee(s: Ledger, origin: Origin, call: TestCall, prices: Prices, rate: Option<Rate>)
    requires Execute(s, origin, call, prices, rate).0.Ok?
    ensures var (r, s') := Execute(s, origin, call, prices, rate);
      && r.value.paysFee == No
      && origin.Signed? && rate.Some? && FeeFor(call, prices, rate.value).Some?
      && s'.FreeBalance(origin.who) == s.FreeBalance(origin.who) - FeeFor(call, prices, rate.value).value
      && (forall a :: a != origin.who ==> s'.FreeBalance(a) == s.FreeBalance(a))
      && s'.handled == s.handled + [call]
  {
  }

  /**
   * A signed call the filter prices, whose fee the submitter's balance
   * covers, succeeds at `Pays::No` and costs exactly its fee.
   */
  lemma SufficientBalanceSucceeds(s: Ledger, who: AccountId, call: TestCall, prices: Prices, rate: Rate)
    requires !BaseFilter(call)
    requires s.FreeBalance(who) >= FeeFor(call, prices, rate).value
    ensures var (r, s') := Execute(s, Signed(who), call, prices, Some(rate));
      && r == Ok(PostInfo(No))
      && s'.FreeBalance(who) == s.FreeBalance(who) - FeeFor(call, prices, rate).value
      && s'.handled == s.handled + [call]
  {
  }

  /**
   * Submitting the same revocation twice succeeds twice and charges twice;
   * the second submission leaves the revocations as the first left them.
   */
  lemma RevokeTwiceChargesTwice(s: Ledger, who: AccountId, reg: RegistryId, ids: set<RevokeId>, prices: Prices, rate: Rate)
    requires s.FreeBalance(who) >= 2 * FeeFor(RevokeMod(Revoke(reg, ids)), prices, rate).value
    ensures var call := RevokeMod(Revoke(reg, ids));
      var fee := FeeFor(call, prices, rate).value;
      var (r1, s1) := Execute(s, Signed(who), call, prices, Some(rate));
      var (r2, s2) := Execute(s1, Signed(who), call, prices, Some(rate));
      && r1 == Ok(PostInfo(No)) && r2 == Ok(PostInfo(No))
      && s2.revocations == s1.revocations
      && (forall id :: id in ids ==> (reg, id) in s2.revocations)
      && s2.FreeBalance(who) == s.FreeBalance(who) - 2 * fee
  {
    var call := RevokeMod(Revoke(reg, ids));
    var s1 := Execute(s, Signed(who), call, prices, Some(rate)).1;
    RevokeIsIdempotent(s.revocations, reg, ids);
    assert s1.revocations == Revoked(s.revocations, reg, ids);
  }

  /** The sum of the fees of revoking (or unrevoking) each set of ids in turn. */
  function TotalRevocationFee(cases: seq<set<RevokeId>>, prices: Prices, rate: Rate): nat {
    if cases == [] then 0
    else RevocationSize(cases[0]) * prices.revokeRevocationOp / rate + TotalRevocationFee(cases[1..], prices, rate)
  }

  /**
   * Submitting a revocation of each set of ids in turn, signed by `who`:
   * whether every submission succeeded with `Pays::No`, and the final ledger.
   */
  function RevokeInTurn(s: Ledger, who: AccountId, reg: RegistryId, cases: seq<set<RevokeId>>, prices: Prices, rate: Rate)
    : (bool, Ledger)
    decreases |cases|
  {
    if cases == [] then (true, s)
    else
      var (r, s1) := Execute(s, Signed(who), RevokeMod(Revoke(reg, cases[0])), prices, Some(rate));
      var (ok, s2) := RevokeInTurn(s1, who, reg, cases[1..], prices, rate);
      (r == Ok(PostInfo(No)) && ok, s2)
  }

  /**
   * With a balance that covers the sum of the fees, every revocation in the
   * sequence succeeds, the submitter pays exactly that sum, nobody else pays,
   * nothing revoked is lost, and every id of every set ends up revoked.
   */
  lemma {:induction false} RevokeInTurnChargesTotal(
    s: Ledger, who: AccountId, reg: RegistryId, cases: seq<set<RevokeId>>, prices: Prices, rate: Rate)
    requires s.FreeBalance(who) >= TotalRevocationFee(cases, prices, rate)
    ensures var (ok, s') := RevokeInTurn(s, who, reg, cases, prices, rate);
      && ok
      && s'.FreeBalance(who) == s.FreeBalance(who) - TotalRevocationFee(cases, prices, rate)
      && (forall a :: a != who ==> s'.FreeBalance(a) == s.FreeBalance(a))
      && s.revocations <= s'.revocations
      && s'.registries == s.registries
      && (forall i, id :: 0 <= i < |cases| && id in cases[i] ==> (reg, id) in s'.revocations)
    decreases |cases|
  {
    if cases != [] {
      var s1 := Execute(s, Signed(who), RevokeMod(Revoke(reg, cases[0])), prices, Some(rate)).1;
      RevokeInTurnChargesTotal(s1, who, reg, cases[1..], prices, rate);
      var s' := RevokeInTurn(s, who, reg, cases, prices, rate).1;
      forall i, id | 0 <= i < |cases| && id in cases[i]
        ensures (reg, id) in s'.revocations
      {
        if i > 0 {
          assert cases[1..][i - 1] == cases[i];
        } else {
          assert (reg, id) in s1.revocations;
        }
      }
    }
  }

  /** The pairs naming every id of every set of `cases` in registry `reg`. */
  function CaseIds(reg: RegistryId, cases: seq<set<RevokeId>>): set<(RegistryId, RevokeId)> {
    set i, id | 0 <= i < |cases| && id in cases[i] :: (reg, id)
  }

  /**
   * For each set of ids in turn: revoking it directly through the revocation
   * module, then submitting its unrevocation signed by `who`. Gives whether
   * every unrevocation succeeded with `Pays::No`, and the final ledger.
   */
  function UnrevokeInTurn(s: Ledger, who: AccountId, reg: RegistryId, cases: seq<set<RevokeId>>, prices: Prices, rate: Rate)
    : (bool, Ledger)
    decreases |cases|
  {
    if cases == [] then (true, s)
    else
      var s1 := Handle(s, RevokeMod(Revoke(reg, cases[0])));
      var (r, s2) := Execute(s1, Signed(who), RevokeMod(UnRevoke(reg, cases[0])), prices, Some(rate));
      var (ok, s3) := UnrevokeInTurn(s2, who, reg, cases[1..], prices, rate);
      (r == Ok(PostInfo(No)) && ok, s3)
  }

  /**
   * With a balance that covers the sum of the fees, every unrevocation in
   * the sequence succeeds, the submitter pays exactly that sum, nobody else
   * pays, the registries stay as they were, and the revocations are the old
   * ones less the ids of the cases: those end up unrevoked, and every other
   * pair keeps its status.
   */
  lemma {:induction false} UnrevokeInTurnChargesTotal(
    s: Ledger, who: AccountId, reg: RegistryId, cases: seq<set<RevokeId>>, prices: Prices, rate: Rate)
    requires s.FreeBalance(who) >= TotalRevocationFee(cases, prices, rate)
    ensures var (ok, s') := UnrevokeInTurn(s, who, reg, cases, prices, rate);
      && ok
      && s'.FreeBalance(who) == s.FreeBalance(who) - TotalRevocationFee(cases, prices, rate)
      && (forall a :: a != who ==> s'.FreeBalance(a) == s.FreeBalance(a))
      && s'.registries == s.registries
      && s'.revocations == s.revocations - CaseIds(reg, cases)
    decreases |cases|
  {
    if cases != [] {
      var s1 := Handle(s, RevokeMod(Revoke(reg, cases[0])));
      var s2 := Execute(s1, Signed(who), RevokeMod(UnRevoke(reg, cases[0])), prices, Some(rate)).1;
      UnrevokeInTurnChargesTotal(s2, who, reg, cases[1..], prices, rate);
      var first := set id | id in cases[0] :: (reg, id);
      assert s2.revocations == s.revocations - first;
      assert CaseIds(reg, cases) == first + CaseIds(reg, cases[1..]) by {
        forall x | x in CaseIds(reg, cases)
          ensures x in first + CaseIds(reg, cases[1..])
        {
          var i, id :| 0 <= i < |cases| && id in cases[i] && x == (reg, id);
          if i > 0 {
            assert cases[1..][i - 1] == cases[i];
          }
        }
        forall x | x in CaseIds(reg, cases[1..])
          ensures x in CaseIds(reg, cases)
        {
          var i, id :| 0 <= i < |cases[1..]| && id in cases[1..][i] && x == (reg, id);
          assert cases[i + 1] == cases[1..][i];
        }
      }
    }
  }

  /** The test runtime: balances, the revocation module's storage and the price provider's rate. */
  class Runtime {
    const prices: Prices
    var balances: map<AccountId, nat>
    var registries: map<RegistryId, Registry>
    var revocations: set<(RegistryId, RevokeId)>
    var handled: seq<TestCall>
    /** The rate the price provider currently gives, if any. */
    var rate: Option<Rate>

    function State(): Ledger
      reads this
    {
      Ledger(balances, registries, revocations, handled)
    }

    function FreeBalance(who: AccountId): nat
      reads this
    {
      State().FreeBalance(who)
    }

    /** The test externalities: ALICE holds 100_000_000_000 and the provider's rate is 72. */
    constructor Ext(prices: Prices)
      ensures this.prices == prices && rate == Some(RATE_DOCK_USD)
      ensures State() == Ledger(map[ALICE := 100_000_000_000], map[], {}, [])
    {
      this.prices := prices;
      balances := map[ALICE := 100_000_000_000];
      registries, revocations, handled := map[], {}, [];
      rate := Some(RATE_DOCK_USD);
    }

    /** `make_free_balance_be`: sets one account's free balance. */
    method MakeFreeBalanceBe(who: AccountId, amount: u64)
      modifies this`balances
      ensures balances == old(balances)[who := amount]
    {
      balances := balances[who := amount];
    }

    /** Lets a call through to the module that handles it, bypassing the filter. */
    method Dispatch(call: TestCall)
      modifies this`registries, this`revocations, this`handled
      ensures State() == Handle(old(State()), call)
    {
      handled := handled + [call];
      match call {
        case RevokeMod(Revoke(reg, ids)) => revocations := Revoked(revocations, reg, ids);
        case RevokeMod(UnRevoke(reg, ids)) => revocations := Unrevoked(revocations, reg, ids);
        case RevokeMod(NewRegistry(reg, registry)) => registries := registries[reg := registry];
        case RevokeMod(RemoveRegistry(reg)) => registries := registries - {reg};
        case _ =>
      }
    }

    /** `execute_call`: checks the origin, prices the call, debits the submitter, then dispatches the call. */
    method ExecuteCall(origin: Origin, call: TestCall) returns (r: DispatchResultWithPostInfo<Error>)
      modifies this`balances, this`registries, this`revocations, this`handled
      ensures (r, State()) == Execute(old(State()), origin, call, prices, rate)
    {
      if !origin.Signed? {
        return BadOriginResult();
      }
      var who := origin.who;
      var pricing := PricingOf(call, prices);
      if pricing.None? {
        return Rejected(UnexpectedCall);
      }
      if rate.None? {
        return Rejected(PriceUnavailable);
      }
      var fee := FiatCost(pricing.value) / rate.value;
      var balance := FreeBalance(who);
      if balance < fee {
        return Rejected(InsufficientBalance);
      }
      balances := balances[who := balance - fee];
      Dispatch(call);
      r := Ok(PostInfo(No));
    }

    /** `measure_fees`: executes a call signed by `who` and reports how much `who`'s free balance dropped. */
    method MeasureFees(who: AccountId, call: TestCall) returns (fee: int, r: DispatchResultWithPostInfo<Error>)
      modifies this`balances, this`registries, this`revocations, this`handled
      ensures (r, State()) == Execute(old(State()), Signed(who), call, prices, rate)
      ensures r.Ok? ==> r.value.paysFee == No && rate.Some? && Some(fee) == FeeFor(call, prices, rate.value)
      ensures r.Err? ==> fee == 0
    {
      var balancePre := FreeBalance(who);
      r := ExecuteCall(Signed(who), call);
      var balancePost := FreeBalance(who);
      fee := balancePre - balancePost;
    }

    /**
     * The revocation test: each set of ids is revoked through the filter in
     * turn, every call succeeds, is charged its fee, and leaves its ids
     * revoked; a repeated set succeeds and is charged again.
     */
    method RevokeCases(who: AccountId, reg: RegistryId, cases: seq<set<RevokeId>>)
      returns (fees: seq<int>, results: seq<DispatchResultWithPostInfo<Error>>)
      requires rate.Some?
      requires FreeBalance(who) >= TotalRevocationFee(cases, prices, rate.value)
      modifies this`balances, this`registries, this`revocations, this`handled
      ensures |fees| == |cases| == |results|
      ensures forall i :: 0 <= i < |cases| ==>
        results[i] == Ok(PostInfo(No)) && fees[i] == RevocationSize(cases[i]) * prices.revokeRevocationOp / rate.value
      ensures FreeBalance(who) == old(FreeBalance(who)) - TotalRevocationFee(cases, prices, rate.value)
      ensures forall i, id :: 0 <= i < |cases| && id in cases[i] ==> (reg, id) in revocations
      ensures registries == old(registries)
      ensures State() == RevokeInTurn(old(State()), who, reg, cases, prices, rate.value).1
      ensures forall a :: a != who ==> FreeBalance(a) == old(FreeBalance(a))
    {
      fees, results := [], [];
      var i := 0;
      while i < |cases|
        invariant 0 <= i <= |cases| && |fees| == i == |results|
        invariant forall k :: 0 <= k < i ==>
          results[k] == Ok(PostInfo(No)) && fees[k] == RevocationSize(cases[k]) * prices.revokeRevocationOp / rate.value
        invariant FreeBalance(who) + TotalRevocationFee(cases, prices, rate.value)
          == old(FreeBalance(who)) + TotalRevocationFee(cases[i..], prices, rate.value)
        invariant forall k, id :: 0 <= k < i && id in cases[k] ==> (reg, id) in revocations
        invariant registries == old(registries)
        invariant RevokeInTurn(old(State()), who, reg, cases, prices, rate.value).1
          == RevokeInTurn(State(), who, reg, cases[i..], prices, rate.value).1
      {
        assert cases[i..][1..] == cases[i + 1..];
        var fee, r := MeasureFees(who, RevokeMod(Revoke(reg, cases[i])));
        fees, results := fees + [fee], results + [r];
        i := i + 1;
      }
      assert cases[i..] == [];
      RevokeInTurnChargesTotal(old(State()), who, reg, cases, prices, rate.value);
    }

    /**
     * The unrevocation test: each set of ids is revoked directly, then
     * unrevoked through the filter; every unrevocation succeeds, is charged
     * its fee, and leaves none of its ids revoked.
     */
    method UnrevokeCases(who: AccountId, reg: RegistryId, cases: seq<set<RevokeId>>)
      returns (fees: seq<int>, results: seq<DispatchResultWithPostInfo<Error>>)
      requires rate.Some?
      requires FreeBalance(who) >= TotalRevocationFee(cases, prices, rate.value)
      modifies this`balances, this`registries, this`revocations, this`handled
      ensures |fees| == |cases| == |results|
      ensures forall i :: 0 <= i < |cases| ==>
        results[i] == Ok(PostInfo(No)) && fees[i] == RevocationSize(cases[i]) * prices.revokeRevocationOp / rate.value
      ensures FreeBalance(who) == old(FreeBalance(who)) - TotalRevocationFee(cases, prices, rate.value)
      ensures forall i, id :: 0 <= i < |cases| && id in cases[i] ==> (reg, id) !in revocations
      ensures registries == old(registries)
      ensures State() == UnrevokeInTurn(old(State()), who, reg, cases, prices, rate.value).1
      ensures forall a :: a != who ==> FreeBalance(a) == old(FreeBalance(a))
      ensures revocations == old(revocations) - CaseIds(reg, cases)
    {
      fees, results := [], [];
      var i := 0;
      while i < |cases|
        invariant 0 <= i <= |cases| && |fees| == i == |results|
        invariant forall k :: 0 <= k < i ==>
          results[k] == Ok(PostInfo(No)) && fees[k] == RevocationSize(cases[k]) * prices.revokeRevocationOp / rate.value
        invariant FreeBalance(who) + TotalRevocationFee(cases, prices, rate.value)
          == old(FreeBalance(who)) + TotalRevocationFee(cases[i..], prices, rate.value)
        invariant UnrevokeInTurn(old(State()), who, reg, cases, prices, rate.value).1
          == UnrevokeInTurn(State(), who, reg, cases[i..], prices, rate.value).1
      {
        assert cases[i..][1..] == cases[i + 1..];
        Dispatch(RevokeMod(Revoke(reg, cases[i])));
        var fee, r := MeasureFees(who, RevokeMod(UnRevoke(reg, cases[i])));
        fees, results := fees + [fee], results + [r];
        i := i + 1;
      }
      assert cases[i..] == [];
      UnrevokeInTurnChargesTotal(old(State()), who, reg, cases, prices, rate.value);
      forall k, id | 0 <= k < |cases| && id in cases[k]
        ensures (reg, id) !in revocations
      {
        assert (reg, id) in CaseIds(reg, cases);
      }
    }
  }
}

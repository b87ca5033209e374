/**
  Gas limits and fee caps of a signed payout (blockchain/transaction_sender.go). Gas is a 64-bit
  unsigned integer and wraps; fees are arbitrary-precision.
*/
module Fees {
  import opened Wrappers

  const TWO_64 := 0x1_0000_0000_0000_0000

  type uint64 = x: int | 0 <= x < TWO_64

  datatype FeeError =
    | DivisionByZero | GasTooLarge | GasIsZero | GasAboveConfigured | FeeCapAboveConfigured | TipAboveConfigured
    | BalanceInsufficient | GasFeeInsufficient

  function Wrap(x: int): uint64 {
    x % TWO_64
  }

  /** The estimate times `factor` percent, guarded against overflow by a division. */
  function Scaled(estimated: uint64, factor: uint64): Result<uint64, FeeError>
    requires factor > 0
  {
    if estimated > (TWO_64 - 1) / factor then Err(GasTooLarge)
    else
      var limit := Wrap(estimated * factor) / 100;
      if limit == 0 then Err(GasIsZero) else Ok(limit)
  }

  /** addGasLimitBuffer in 64-bit arithmetic; a percentage that wraps to zero makes the division panic. */
  function AddGasLimitBuffer(estimated: uint64, percent: uint64): Result<uint64, FeeError> {
    var factor := Wrap(100 + percent);
    if factor == 0 then Err(DivisionByZero) else Scaled(estimated, factor)
  }

  lemma GuardIsExact(a: nat, b: nat, m: nat)
    requires b > 0
    ensures a > m / b <==> a * b > m
  {
    if a > m / b {
      assert (m / b + 1) * b <= a * b;
    } else {
      assert a * b <= (m / b) * b;
    }
  }

  /** The guard is exact, so the product never wraps. */
  lemma ScaledIsExact(estimated: uint64, factor: uint64)
    requires factor > 0
    ensures Scaled(estimated, factor).Ok? <==> 100 <= estimated * factor < TWO_64
    ensures Scaled(estimated, factor).Ok? ==> Scaled(estimated, factor).value == estimated * factor / 100
    ensures Scaled(estimated, factor) == Err(GasTooLarge) <==> estimated * factor >= TWO_64
  {
    GuardIsExact(estimated, factor, TWO_64 - 1);
    ProductIsNat(estimated, factor);
    WrapInRange(estimated * factor);
  }

  lemma ProductIsNat(a: nat, b: nat)
    ensures a * b >= 0
  {
  }

  lemma WrapInRange(x: nat)
    ensures x < TWO_64 ==> Wrap(x) == x
  {
  }

  lemma ProductAgainst(a: nat, b: nat)
    ensures b >= 100 ==> a * b >= a * 100
    ensures b <= 99 ==> a * b <= a * 99
  {
    if b >= 100 {
      assert a * b == a * 100 + a * (b - 100);
    } else {
      assert a * b == a * 99 - a * (99 - b);
    }
  }

  /**
    While the factor does not wrap, the 64-bit computation is the integer one, succeeds exactly when the
    buffered limit is at least one and its product fits, and never falls below the estimate.
  */
  lemma GasLimitIsExact(estimated: uint64, percent: uint64)
    requires 100 + percent < TWO_64
    ensures AddGasLimitBuffer(estimated, percent).Ok? <==> 100 <= estimated * (100 + percent) < TWO_64
    ensures AddGasLimitBuffer(estimated, percent).Ok? ==>
              && AddGasLimitBuffer(estimated, percent).value == estimated * (100 + percent) / 100
              && AddGasLimitBuffer(estimated, percent).value >= estimated
    ensures AddGasLimitBuffer(estimated, percent) == Err(GasTooLarge) <==> estimated * (100 + percent) >= TWO_64
    ensures AddGasLimitBuffer(estimated, percent) != Err(DivisionByZero)
  {
    WrapInRange(100 + percent);
    ScaledIsExact(estimated, 100 + percent);
    ProductAgainst(estimated, 100 + percent);
  }

  lemma WrappedFactor(percent: uint64)
    requires 100 + percent >= TWO_64
    ensures Wrap(100 + percent) == 100 + percent - TWO_64 <= 99
  {
  }

  /** A computed limit covers the estimate exactly when 100 + percent does not wrap around. */
  lemma CoversEstimateExactly(estimated: uint64, percent: uint64)
    ensures AddGasLimitBuffer(estimated, percent).Ok? ==>
              (AddGasLimitBuffer(estimated, percent).value >= estimated <==> 100 + percent < TWO_64)
  {
    if 100 + percent < TWO_64 {
      GasLimitIsExact(estimated, percent);
    } else {
      WrappedFactor(percent);
      if 100 + percent > TWO_64 {
        ScaledIsExact(estimated, 100 + percent - TWO_64);
        ProductAgainst(estimated, 100 + percent - TWO_64);
      }
    }
  }

  /** The wrap-around does happen: a buffer of 2^64 - 99 percent turns an estimate of 21000 into 210. */
  lemma WrapUndercuts()
    ensures AddGasLimitBuffer(21000, TWO_64 - 99) == Ok(210)
    ensures AddGasLimitBuffer(21000, TWO_64 - 100) == Err(DivisionByZero)
  {
  }

  /** estimateTransactionGasLimit; a configured limit of zero means none. */
  function GasLimit(estimated: uint64, percent: uint64, configured: uint64): Result<uint64, FeeError> {
    match AddGasLimitBuffer(estimated, percent)
    case Err(e) => Err(e)
    case Ok(limit) => if configured > 0 && limit > configured then Err(GasAboveConfigured) else Ok(limit)
  }

  datatype Caps = Caps(fee: nat, tip: nat)

  /** suggestDynamicFeeCaps with its validation against the configured maxima. */
  function SuggestCaps(baseFee: nat, tip: nat, maxFee: Option<nat>, maxTip: Option<nat>): Result<Caps, FeeError> {
    var fee := 2 * baseFee + tip;
    if maxFee.Some? && fee > maxFee.value then Err(FeeCapAboveConfigured)
    else if maxTip.Some? && tip > maxTip.value then Err(TipAboveConfigured)
    else Ok(Caps(fee, tip))
  }

  /** What the node and the configuration answer while one payout is built. */
  datatype Quote = Quote(estimated: uint64, percent: uint64, configuredGas: uint64, baseFee: nat, tip: nat,
                         maxFee: Option<nat>, maxTip: Option<nat>,
                         assetBalance: nat, gasBalance: nat)

  datatype Signed = Signed(gasLimit: uint64, caps: Caps, value: nat)

  /** buildSignedTransaction: asset balance, gas limit, fee caps, then the balance the gas is paid from. */
  function BuildSigned(native: bool, amount: nat, q: Quote): Result<Signed, FeeError> {
    if q.assetBalance < amount then Err(BalanceInsufficient)
    else
      match GasLimit(q.estimated, q.percent, q.configuredGas)
      case Err(e) => Err(e)
      case Ok(limit) =>
        match SuggestCaps(q.baseFee, q.tip, q.maxFee, q.maxTip)
        case Err(e) => Err(e)
        case Ok(caps) =>
          var value := if native then amount else 0;
          if q.gasBalance < limit * caps.fee + value then Err(GasFeeInsufficient) else Ok(Signed(limit, caps, value))
  }

  /** The price a block with this base fee charges per unit of gas (the Specification section of EIP-1559). */
  function EffectivePrice(caps: Caps, blockBaseFee: nat): nat
    requires blockBaseFee <= caps.fee
  {
    if caps.tip < caps.fee - blockBaseFee then blockBaseFee + caps.tip else caps.fee
  }

  lemma CostIsBounded(used: nat, limit: nat, price: nat, cap: nat)
    requires used <= limit && price <= cap
    ensures used * price <= limit * cap
  {
    assert used * price <= used * cap;
    assert used * cap <= limit * cap;
  }

  /**
    A signed payout is valid and affordable: its tip is at most its fee cap, the caps respect the
    configuration, the next block can include it even if the base fee has doubled, and whatever block
    includes it, however much of the limit it uses, the balance that was read covers gas and value.
  */
  lemma SignedIsAffordable(native: bool, amount: nat, q: Quote, used: nat, blockBaseFee: nat)
    ensures BuildSigned(native, amount, q).Ok? ==> Affordable(native, amount, q, BuildSigned(native, amount, q).value,
                                                              used, blockBaseFee)
  {
    if BuildSigned(native, amount, q).Ok? {
      var t := BuildSigned(native, amount, q).value;
      if used <= t.gasLimit && blockBaseFee <= t.caps.fee {
        CostIsBounded(used, t.gasLimit, EffectivePrice(t.caps, blockBaseFee), t.caps.fee);
      }
      CoversEstimateExactly(q.estimated, q.percent);
    }
  }

  predicate Affordable(native: bool, amount: nat, q: Quote, t: Signed, used: nat, blockBaseFee: nat) {
    && t.caps.tip <= t.caps.fee && t.caps.fee >= 2 * q.baseFee
    && (q.maxFee.Some? ==> t.caps.fee <= q.maxFee.value) && (q.maxTip.Some? ==> t.caps.tip <= q.maxTip.value)
    && (q.configuredGas > 0 ==> t.gasLimit <= q.configuredGas)
    && (100 + q.percent < TWO_64 ==> t.gasLimit >= q.estimated)
    && t.value == (if native then amount else 0) && amount <= q.assetBalance
    && (used <= t.gasLimit && blockBaseFee <= t.caps.fee ==>
          used * EffectivePrice(t.caps, blockBaseFee) + t.value <= q.gasBalance)
  }

  /** Gas and value are covered whatever gas is used and whichever block includes the payout. */
  ghost predicate AlwaysCovered(t: Signed, balance: nat) {
    forall used: nat, blockBaseFee: nat :: used <= t.gasLimit && blockBaseFee <= t.caps.fee ==>
        Covered(t, balance, used, blockBaseFee)
  }

  predicate Covered(t: Signed, balance: nat, used: nat, blockBaseFee: nat)
    requires blockBaseFee <= t.caps.fee
  {
    used * EffectivePrice(t.caps, blockBaseFee) + t.value <= balance
  }

  lemma CoveredIffDearest(t: Signed, balance: nat)
    ensures AlwaysCovered(t, balance) <==> t.gasLimit * t.caps.fee + t.value <= balance
  {
    if t.gasLimit * t.caps.fee + t.value <= balance {
      forall used: nat, blockBaseFee: nat | used <= t.gasLimit && blockBaseFee <= t.caps.fee
        ensures Covered(t, balance, used, blockBaseFee)
      {
        CostIsBounded(used, t.gasLimit, EffectivePrice(t.caps, blockBaseFee), t.caps.fee);
      }
    } else {
      assert EffectivePrice(t.caps, t.caps.fee) == t.caps.fee;
      assert !Covered(t, balance, t.gasLimit, t.caps.fee);
    }
  }

  /**
    What may be signed from the answers `q`: the buffered estimate and the suggested tip under a fee cap of twice
    the base fee plus that tip, each up to its configured maximum, with gas and value always covered.
  */
  ghost predicate RightlySigned(native: bool, amount: nat, q: Quote, t: Signed) {
    && amount <= q.assetBalance && t.value == (if native then amount else 0)
    && AddGasLimitBuffer(q.estimated, q.percent) == Ok(t.gasLimit)
    && (q.configuredGas == 0 || t.gasLimit <= q.configuredGas)
    && t.caps.tip == q.tip && t.caps.fee == 2 * q.baseFee + q.tip
    && (q.maxFee.Some? ==> t.caps.fee <= q.maxFee.value) && (q.maxTip.Some? ==> t.caps.tip <= q.maxTip.value)
    && AlwaysCovered(t, q.gasBalance)
  }

  /**
    The payout that is signed is the one that rightly may be, and none is refused that may: a limit or cap at its
    configured maximum and a balance that is just enough are accepted.
  */
  lemma SignsExactlyAffordable(native: bool, amount: nat, q: Quote, t: Signed)
    ensures BuildSigned(native, amount, q) == Ok(t) <==> RightlySigned(native, amount, q, t)
  {
    CoveredIffDearest(t, q.gasBalance);
  }
}

/** Cross-network timing checks in wall-clock seconds (src/swaps/timing.rs). */
module Timing {
  import opened Wrappers

  const BITCOIN_BLOCK_SECONDS: U64 := 600
  const LIQUID_BLOCK_SECONDS: U64 := 60
  const CLAIM_MARGIN_SECONDS: U64 := 7200

  datatype TimingError = NotPositive | Overflow | TooShort

  datatype TimingEvidence = TimingEvidence(
    requiredLiquidRefundDelta: nat, availableSeconds: U64, requiredSeconds: U64)

  function ValidateForwardTiming(lightningCltvLimit: U64, liquidRefundDelta: U64, claimMargin: Option<U64>)
    : Result<TimingEvidence, TimingError>
  {
    if lightningCltvLimit == 0 || liquidRefundDelta == 0 then Err(NotPositive)
    else
      var margin := claimMargin.UnwrapOr(CLAIM_MARGIN_SECONDS);
      match CheckedMul(lightningCltvLimit, BITCOIN_BLOCK_SECONDS)
      case None => Err(Overflow)
      case Some(limitSeconds) =>
        match CheckedAdd(limitSeconds, margin)
        case None => Err(Overflow)
        case Some(requiredSeconds) =>
          match CheckedMul(liquidRefundDelta, LIQUID_BLOCK_SECONDS)
          case None => Err(Overflow)
          case Some(availableSeconds) =>
            if availableSeconds <= requiredSeconds then Err(TooShort)
            else Ok(TimingEvidence(requiredSeconds / LIQUID_BLOCK_SECONDS + 1, availableSeconds, requiredSeconds))
  }

  function ValidateReverseTiming(currentBitcoinHeight: U64, acceptedExpiryHeight: U64, liquidRefundDelta: U64,
                                 claimMargin: Option<U64>)
    : Result<TimingEvidence, TimingError>
  {
    if acceptedExpiryHeight <= currentBitcoinHeight || liquidRefundDelta == 0 then Err(NotPositive)
    else
      var margin := claimMargin.UnwrapOr(CLAIM_MARGIN_SECONDS);
      match CheckedMul(acceptedExpiryHeight - currentBitcoinHeight, BITCOIN_BLOCK_SECONDS)
      case None => Err(Overflow)
      case Some(availableSeconds) =>
        match CheckedMul(liquidRefundDelta, LIQUID_BLOCK_SECONDS)
        case None => Err(Overflow)
        case Some(refundSeconds) =>
          match CheckedAdd(refundSeconds, margin)
          case None => Err(Overflow)
          case Some(requiredSeconds) =>
            if availableSeconds <= requiredSeconds then Err(TooShort)
            else Ok(TimingEvidence(liquidRefundDelta, availableSeconds, requiredSeconds))
  }

  /** The forward check in plain integers: with `m` the given margin or two hours, it accepts exactly
      positive values with limit * 600 + m < delta * 60 whose two sides fit 64 bits, reports both
      sides, and reports the least delta that would have passed. */
  lemma ForwardAcceptsExactly(limit: U64, delta: U64, margin: Option<U64>)
    ensures var m, res := if margin.Some? then margin.value else 7200, ValidateForwardTiming(limit, delta, margin);
      && (res.Ok? <==>
            && limit > 0 && delta > 0 && limit * 600 + m < delta * 60
            && limit * 600 + m < 0x1_0000_0000_0000_0000 && delta * 60 < 0x1_0000_0000_0000_0000)
      && (res == Err(NotPositive) <==> limit == 0 || delta == 0)
      && (res == Err(TooShort) <==>
            limit > 0 && delta > 0 && delta * 60 <= limit * 600 + m < 0x1_0000_0000_0000_0000)
      && (res.Ok? ==>
            && res.value.requiredSeconds == limit * 600 + m && res.value.availableSeconds == delta * 60
            && res.value.requiredLiquidRefundDelta * 60 > limit * 600 + m
            && forall d: nat :: d * 60 > limit * 600 + m ==> res.value.requiredLiquidRefundDelta <= d)
  {
  }

  /** Every delta whose seconds fit 64 bits is accepted exactly when it reaches the delta any
      acceptance reports. */
  lemma ForwardDeltaIsLeast(limit: U64, accepted: U64, delta: U64, margin: Option<U64>)
    requires ValidateForwardTiming(limit, accepted, margin).Ok?
    requires delta * LIQUID_BLOCK_SECONDS < U64_BOUND
    ensures ValidateForwardTiming(limit, delta, margin).Ok?
       <==> delta >= ValidateForwardTiming(limit, accepted, margin).value.requiredLiquidRefundDelta
  {
    var required := ValidateForwardTiming(limit, accepted, margin).value.requiredSeconds;
    assert delta * 60 > required <==> delta >= required / 60 + 1;
  }

  /** The reverse check in plain integers: the Bitcoin blocks left, at 600 s each, exceed the Liquid
      refund delta, at 60 s each, by more than the margin. */
  lemma ReverseAcceptsExactly(tip: U64, expiry: U64, delta: U64, margin: Option<U64>)
    ensures var m, res := if margin.Some? then margin.value else 7200,
                          ValidateReverseTiming(tip, expiry, delta, margin);
      && (res.Ok? <==>
            && expiry > tip && delta > 0 && delta * 60 + m < (expiry - tip) * 600
            && delta * 60 + m < 0x1_0000_0000_0000_0000 && (expiry - tip) * 600 < 0x1_0000_0000_0000_0000)
      && (res == Err(NotPositive) <==> expiry <= tip || delta == 0)
      && (res == Err(TooShort) <==>
            expiry > tip && delta > 0 && (expiry - tip) * 600 <= delta * 60 + m < 0x1_0000_0000_0000_0000)
      && (res.Ok? ==> res.value == TimingEvidence(delta, (expiry - tip) * 600, delta * 60 + m))
  {
  }

  /** Block times: block number to the second it is found. */
  type Schedule = nat -> nat

  ghost predicate SlowAtLeast(time: Schedule, gap: nat) {
    forall h: nat :: time(h) + gap <= time(h + 1)
  }

  ghost predicate FastAtMost(time: Schedule, gap: nat) {
    forall h: nat :: time(h) <= time(h + 1) <= time(h) + gap
  }

  lemma {:induction false} SlowSum(time: Schedule, gap: nat, from: nat, blocks: nat)
    requires SlowAtLeast(time, gap)
    ensures time(from) + gap * blocks <= time(from + blocks)
    decreases blocks
  {
    if blocks > 0 {
      SlowSum(time, gap, from, blocks - 1);
      assert time(from + (blocks - 1)) + gap <= time(from + (blocks - 1) + 1);
      assert gap * blocks == gap * (blocks - 1) + gap;
    }
  }

  lemma {:induction false} FastSum(time: Schedule, gap: nat, from: nat, blocks: nat)
    requires FastAtMost(time, gap)
    ensures time(from + blocks) <= time(from) + gap * blocks
    decreases blocks
  {
    if blocks > 0 {
      FastSum(time, gap, from, blocks - 1);
      assert time(from + (blocks - 1) + 1) <= time(from + (blocks - 1)) + gap;
      assert gap * blocks == gap * (blocks - 1) + gap;
    }
  }

  /** An accepted forward swap is safe on every schedule that honours the block-time
      assumptions: counted from the two tips, the Lightning limit plus the margin passes
      strictly before the Liquid refund height is found. On one shared clock, where a second
      `now` lies between the known tips and the next Liquid block, the claim margin still
      covers everything but at most the one Liquid block already in progress. */
  lemma ForwardScheduleSafe(liquid: Schedule, bitcoin: Schedule, liquidTip: nat, bitcoinTip: nat,
                            limit: U64, delta: U64, margin: Option<U64>, now: nat)
    requires ValidateForwardTiming(limit, delta, margin).Ok?
    requires SlowAtLeast(liquid, LIQUID_BLOCK_SECONDS) && FastAtMost(bitcoin, BITCOIN_BLOCK_SECONDS)
    ensures (bitcoin(bitcoinTip + limit) - bitcoin(bitcoinTip)) + margin.UnwrapOr(CLAIM_MARGIN_SECONDS)
          < liquid(liquidTip + delta) - liquid(liquidTip)
    ensures bitcoin(bitcoinTip) <= now < liquid(liquidTip + 1)
      ==> bitcoin(bitcoinTip + limit) + margin.UnwrapOr(CLAIM_MARGIN_SECONDS) < liquid(liquidTip + delta) + 60
  {
    SlowSum(liquid, LIQUID_BLOCK_SECONDS, liquidTip, delta);
    SlowSum(liquid, LIQUID_BLOCK_SECONDS, liquidTip + 1, delta - 1);
    FastSum(bitcoin, BITCOIN_BLOCK_SECONDS, bitcoinTip, limit);
  }

  /** The reverse check is safe under the opposite assumptions: Bitcoin blocks at least
      600 s apart and Liquid blocks at most 60 s apart. */
  lemma ReverseScheduleSafe(liquid: Schedule, bitcoin: Schedule, liquidTip: nat, tip: U64, expiry: U64,
                            delta: U64, margin: Option<U64>)
    requires ValidateReverseTiming(tip, expiry, delta, margin).Ok?
    requires FastAtMost(liquid, LIQUID_BLOCK_SECONDS) && SlowAtLeast(bitcoin, BITCOIN_BLOCK_SECONDS)
    ensures (liquid(liquidTip + delta) - liquid(liquidTip)) + margin.UnwrapOr(CLAIM_MARGIN_SECONDS)
          < bitcoin(expiry) - bitcoin(tip)
  {
    FastSum(liquid, LIQUID_BLOCK_SECONDS, liquidTip, delta);
    SlowSum(bitcoin, BITCOIN_BLOCK_SECONDS, tip, expiry - tip);
  }
}

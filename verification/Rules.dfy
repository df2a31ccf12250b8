/** The constants and pure rules every lease is checked against (contracts/src/RentBondRules.sol). */
module RentBondRules {

  const BUSINESS_UNIT: nat := 10_000
  const MIN_DEPOSIT: nat := 1_000_000
  const MAX_DEPOSIT: nat := 10_000_000_000
  const CHECKOUT_RETRY_DELAY: nat := 86_400
  /** The largest value a `uint256` can hold. */
  const UINT_MAX: nat := 0xFFFF_FFFF_FFFF_FFFF_FFFF_FFFF_FFFF_FFFF_FFFF_FFFF_FFFF_FFFF_FFFF_FFFF_FFFF_FFFF

  /** Durations, in seconds, that fix every deadline of a lease. */
  datatype Timing = Timing(
    checkoutResponse: nat, claim: nat, response: nat, evidence: nat, primary: nat,
    challenge: nat, fallbackEvidence: nat, fallbackResolver: nat, exitNotice: nat)

  predicate IsBusinessAmount(amount: nat, allowZero: bool) {
    (allowZero || amount != 0) && amount % BUSINESS_UNIT == 0
  }

  predicate ValidDeposit(amount: nat) {
    MIN_DEPOSIT <= amount <= MAX_DEPOSIT && IsBusinessAmount(amount, false)
  }

  predicate ValidTiming(t: Timing) {
    && t.checkoutResponse > 0 && t.claim > 0 && t.response > 0 && t.evidence > 0
    && t.primary > 0 && t.challenge > 0 && t.fallbackEvidence > 0
    && t.fallbackEvidence < t.fallbackResolver && t.exitNotice > 0
  }

  function HardEndAt(leaseEndAt: nat, t: Timing): nat {
    leaseEndAt + t.claim + t.response + t.evidence + t.primary
    + t.challenge + t.fallbackResolver + t.exitNotice
  }
}

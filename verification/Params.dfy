/** The runtime constants of the pallet's `Config`, left arbitrary: everything is proved for every
    configuration that meets the constraints written into the types below. */
module Params {
  type Positive = n: nat | 0 < n witness 1

  // List capacities. The code pops from a list as soon as its length equals the capacity,
  // so both must be at least one.
  const MAX_TOP: Positive
  const MAX_BOTTOM: Positive
  const MAX_DELEGATIONS_PER_DELEGATOR: Positive

  // Minimum stakes
  const MIN_COLLATOR_STK: nat
  const MIN_CANDIDATE_STK: nat
  const MIN_DELEGATION: Positive
  type DelegatorMinimum = n: nat | MIN_DELEGATION <= n witness MIN_DELEGATION
  const MIN_DELEGATOR_STK: DelegatorMinimum

  // Delays, in rounds
  const LEAVE_CANDIDATES_DELAY: nat
  const CANDIDATE_BOND_LESS_DELAY: nat
  const LEAVE_DELEGATORS_DELAY: nat
  const REVOKE_DELEGATION_DELAY: nat
  const DELEGATION_BOND_LESS_DELAY: nat
  const REWARD_PAYMENT_DELAY: Positive
}

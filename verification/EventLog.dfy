/** What an observer can recover from the emitted events alone. */
module EventLog {
  import opened EscrowTypes

  /** The six accounting amounts, and what confirmed settlements gave the landlord. */
  datatype Books = Books(
    funded: nat, unallocated: int, tenantCredit: int, landlordCredit: int,
    tenantWithdrawn: int, landlordWithdrawn: int, settlements: nat, settledToLandlord: nat)

  const NO_BOOKS := Books(0, 0, 0, 0, 0, 0, 0, 0)

  /** Only Funded, CreditAllocated and Withdrawn move money; SettlementConfirmed is counted beside them. */
  function Absorb(b: Books, e: Event, tenant: Address): Books {
    if e.Funded? then b.(funded := b.funded + e.amount, unallocated := b.unallocated + e.amount)
    else if e.CreditAllocated? then
      var b := b.(unallocated := b.unallocated - e.credit);
      if e.beneficiary == tenant then b.(tenantCredit := b.tenantCredit + e.credit)
      else b.(landlordCredit := b.landlordCredit + e.credit)
    else if e.Withdrawn? then
      if e.payee == tenant
      then b.(tenantCredit := b.tenantCredit - e.paid, tenantWithdrawn := b.tenantWithdrawn + e.paid)
      else b.(landlordCredit := b.landlordCredit - e.paid, landlordWithdrawn := b.landlordWithdrawn + e.paid)
    else if e.SettlementConfirmed? then
      b.(settlements := b.settlements + 1, settledToLandlord := b.settledToLandlord + e.landlordShare)
    else b
  }

  function Folded(log: seq<Event>, tenant: Address): Books {
    if log == [] then NO_BOOKS
    else Absorb(Folded(log[..|log| - 1], tenant), log[|log| - 1], tenant)
  }

  lemma FoldedSnoc(log: seq<Event>, e: Event, tenant: Address)
    ensures Folded(log + [e], tenant) == Absorb(Folded(log, tenant), e, tenant)
  {
    assert (log + [e])[..|log|] == log;
  }

  /** The log reproduces all six amounts of the accounting. */
  predicate LogAgrees(log: seq<Event>, tenant: Address, a: Accounting) {
    var b := Folded(log, tenant);
    && b.funded == a.fundedAmount && b.unallocated == a.unallocated
    && b.tenantCredit == a.tenantCredit && b.landlordCredit == a.landlordCredit
    && b.tenantWithdrawn == a.tenantWithdrawn && b.landlordWithdrawn == a.landlordWithdrawn
  }
}

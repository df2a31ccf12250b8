/** What the two loops over claims compute: closing the claims, and applying a decision vector. */
module EscrowLoops {
  import opened EscrowTypes
  import opened ClaimTotals
  import opened EventLog
  import opened EscrowSpec

  /** `t` differs from `s` only in its claims, balances, revision, proposal, phase and log. */
  predicate SameFrame(s: State, t: State) {
    && t.terms == s.terms && t.tenantAccepted == s.tenantAccepted
    && t.activeCase == s.activeCase && t.schedule == s.schedule && t.decisions == s.decisions
    && t.checkout == s.checkout && t.claimsSubmitted == s.claimsSubmitted
    && t.claimsClosed == s.claimsClosed && t.totalClaimAmount == s.totalClaimAmount
    && t.caseNonce == s.caseNonce && t.proposalNonce == s.proposalNonce
    && t.accounting.fundedAmount == s.accounting.fundedAmount
    && t.accounting.tenantWithdrawn == s.accounting.tenantWithdrawn
    && t.accounting.landlordWithdrawn == s.accounting.landlordWithdrawn
    && t.accounting.revision >= s.accounting.revision
  }

  /** `t` paid out of `s`: the given amounts went to the two parties' credits. */
  predicate Paid(s: State, t: State, toTenant: nat, toLandlord: nat) {
    && t.accounting.unallocated + toTenant + toLandlord == s.accounting.unallocated
    && t.accounting.tenantCredit == s.accounting.tenantCredit + toTenant
    && t.accounting.landlordCredit == s.accounting.landlordCredit + toLandlord
  }

  /** The log grew by entries that agree with the accounting and confirm no settlement. */
  predicate LogKept(s: State, t: State) {
    LogGrows(s.terms.tenant, s.log, s.accounting, t.log, t.accounting)
  }

  predicate LogGrows(tenant: Address, log: seq<Event>, a: Accounting, log': seq<Event>, a': Accounting) {
    && (LogAgrees(log, tenant, a) ==> LogAgrees(log', tenant, a'))
    && Folded(log', tenant).settlements == Folded(log, tenant).settlements
    && Folded(log', tenant).settledToLandlord == Folded(log, tenant).settledToLandlord
  }

  /** What closing the claims makes of one claim. */
  function Settle(c: Claim): Claim {
    match c.status
    case Accepted => ToLandlord(c)
    case Waived => ToTenant(c)
    case _ => Contest(c)
  }

  function SettledFrom(cs: seq<Claim>, i: nat): seq<Claim> {
    seq(|cs|, j requires 0 <= j < |cs| => if j < i then cs[j] else Settle(cs[j]))
  }

  predicate NoneAllocated(cs: seq<Claim>, i: nat) {
    forall j :: i <= j < |cs| ==> !cs[j].status.Allocated?
  }

  /** Events that move no money and confirm no settlement. */
  predicate Neutral(e: Event) {
    !e.Funded? && !e.CreditAllocated? && !e.Withdrawn? && !e.SettlementConfirmed?
  }

  lemma NeutralGrows(tenant: Address, log: seq<Event>, a: Accounting, e: Event)
    requires Neutral(e)
    ensures LogGrows(tenant, log, a, log + [e], a)
  {
    FoldedSnoc(log, e, tenant);
  }

  /** The log says nothing about the revision. */
  lemma RevisionUnlogged(log: seq<Event>, tenant: Address, a: Accounting, revision: nat)
    ensures LogAgrees(log, tenant, a) == LogAgrees(log, tenant, a.(revision := revision))
  {
  }

  /** A credit moves the amount from the unallocated funds to its beneficiary, and nothing else. */
  lemma CreditForm(s: State, to: Address, amount: nat, source: Source)
    requires s.terms.tenant != s.terms.landlord && IsParty(s.terms, to)
    requires amount <= s.accounting.unallocated
    ensures var o := AllocateCredit(s, to, amount, source);
            && o.Done? && SameFrame(s, o.state) && LogKept(s, o.state) && o.state.phase == s.phase
            && o.state.claims == s.claims
            && Paid(s, o.state, if to == s.terms.tenant then amount else 0,
                    if to == s.terms.tenant then 0 else amount)
            && o.state.proposal == if amount > 0 && s.proposal.proposalId != 0 then NO_PROPOSAL else s.proposal
  {
  }

  lemma SettleOneForm(s: State, i: nat)
    requires s.terms.tenant != s.terms.landlord && s.proposal == NO_PROPOSAL
    requires i < |s.claims| && !s.claims[i].status.Allocated?
    requires PartOf(s.claims[i], AcceptedPart) + PartOf(s.claims[i], WaivedPart) <= s.accounting.unallocated
    ensures var o := SettleOne(s, i); var c := s.claims[i];
            && o.Done? && SameFrame(s, o.state) && LogKept(s, o.state) && o.state.phase == s.phase
            && Paid(s, o.state, PartOf(c, WaivedPart), PartOf(c, AcceptedPart))
            && o.state.claims == s.claims[i := Settle(c)] && o.state.proposal == NO_PROPOSAL
  {
    hide AllocateCredit, LogAgrees, Folded, Absorb, Emit;
    var c := s.claims[i];
    if c.status.Accepted? { CreditForm(s, s.terms.landlord, c.amount, AcceptedClaim); }
    if c.status.Waived? { CreditForm(s, s.terms.tenant, c.amount, WaivedClaim); }
  }

  /** Closing pays accepted claims to the landlord, waived ones to the tenant, and disputes the rest. */
  lemma {:induction false} SettleFromForm(s: State, i: nat, accepted: nat, disputed: nat, unclaimed: nat)
    requires s.terms.tenant != s.terms.landlord
    requires s.proposal == NO_PROPOSAL
    requires NoneAllocated(s.claims, i)
    requires TotalFrom(s.claims, i, AcceptedPart) + TotalFrom(s.claims, i, WaivedPart) <= s.accounting.unallocated
    ensures var o := SettleFrom(s, i, accepted, disputed, unclaimed);
            && o.Done? && SameFrame(s, o.state) && LogKept(s, o.state)
            && Paid(s, o.state, TotalFrom(s.claims, i, WaivedPart), TotalFrom(s.claims, i, AcceptedPart))
            && o.state.claims == SettledFrom(s.claims, i) && o.state.proposal == NO_PROPOSAL
            && o.state.phase == if disputed + TotalFrom(s.claims, i, PendingPart)
                                           + TotalFrom(s.claims, i, DisputedPart) == 0
                                then Phase.Allocated else Phase.ClaimsReview
    decreases |s.claims| - i
  {
    hide SettleOne, Settle, LogAgrees, Folded, Absorb;
    if i < |s.claims| {
      var c := s.claims[i];
      SettleOneForm(s, i);
      var s1 := SettleOne(s, i).state;
      SameTotals(s.claims, s1.claims, i + 1);
      SettleFromForm(s1, i + 1, accepted + AcceptedAmount(c), disputed + ContestedAmount(c), unclaimed);
      assert SettledFrom(s1.claims, i + 1) == SettledFrom(s.claims, i);
    } else {
      assert SettledFrom(s.claims, i) == s.claims;
      NeutralGrows(s.terms.tenant, s.log, s.accounting, ClaimsClosed(unclaimed, accepted, disputed));
    }
  }

  /** Tables that agree from claim `i` on have the same totals from there. */
  lemma SameTotals(cs: seq<Claim>, ds: seq<Claim>, i: nat)
    requires |cs| == |ds| && forall j :: i <= j < |cs| ==> cs[j] == ds[j]
    ensures forall p :: TotalFrom(cs, i, p) == TotalFrom(ds, i, p)
  {
    forall p ensures TotalFrom(cs, i, p) == TotalFrom(ds, i, p) { TotalAgree(cs, ds, i, p); }
  }

  // ---------- applying a decision vector ----------

  /** What entries `k` on award to the landlord. */
  function AwardsFrom(ds: seq<DecisionInput>, k: nat): nat
    decreases |ds| - k
  {
    if k >= |ds| then 0 else ds[k].landlordAmount + AwardsFrom(ds, k + 1)
  }

  predicate LockstepFrom(ds: seq<DecisionInput>, k: nat, cs: seq<Claim>, i: nat) {
    k <= |ds| && Lockstep(ds[k..], DisputedFrom(cs, i))
  }

  /** The entry of `ds` that answers claim `i`, counted from entry `k`. */
  function AwardedFrom(cs: seq<Claim>, i: nat, ds: seq<DecisionInput>, k: nat): seq<Claim>
    requires LockstepFrom(ds, k, cs, i)
    ensures |AwardedFrom(cs, i, ds, k)| == |cs|
    decreases |cs| - i
  {
    if i >= |cs| then cs
    else if cs[i].status.Disputed? then
      LockstepHead(cs, i, ds, k);
      AwardedFrom(cs[i := Award(cs[i], ds[k].landlordAmount)], i + 1, ds, k + 1)
    else AwardedFrom(cs, i + 1, ds, k)
  }

  lemma {:induction false} DisputedAgree(cs: seq<Claim>, ds: seq<Claim>, i: nat)
    requires |cs| == |ds| && forall j :: i <= j < |cs| ==> cs[j] == ds[j]
    ensures DisputedFrom(cs, i) == DisputedFrom(ds, i)
    decreases |cs| - i
  {
    if i < |cs| { DisputedAgree(cs, ds, i + 1); }
  }

  /** In lockstep, the next entry answers the next disputed claim, and the rest stay in lockstep. */
  lemma LockstepHead(cs: seq<Claim>, i: nat, ds: seq<DecisionInput>, k: nat)
    requires LockstepFrom(ds, k, cs, i) && i < |cs| && cs[i].status.Disputed?
    ensures k < |ds| && Answers(ds[k], cs[i])
    ensures LockstepFrom(ds, k + 1, cs[i := Award(cs[i], ds[k].landlordAmount)], i + 1)
  {
    var rest := DisputedFrom(cs, i + 1);
    assert DisputedFrom(cs, i) == [cs[i]] + rest;
    assert ds[k..][0] == ds[k] && ([cs[i]] + rest)[0] == cs[i];
    forall j | 0 <= j < |rest| ensures Answers(ds[k + 1..][j], rest[j]) {
      assert ds[k..][j + 1] == ds[k + 1..][j] && ([cs[i]] + rest)[j + 1] == rest[j];
    }
    DisputedAgree(cs, cs[i := Award(cs[i], ds[k].landlordAmount)], i + 1);
  }

  /** With no disputed claim left, a vector in lockstep is used up. */
  lemma LockstepEnd(cs: seq<Claim>, i: nat, ds: seq<DecisionInput>, k: nat)
    requires LockstepFrom(ds, k, cs, i) && i >= |cs|
    ensures k == |ds|
  {
  }

  lemma LockstepSkip(cs: seq<Claim>, i: nat, ds: seq<DecisionInput>, k: nat)
    requires LockstepFrom(ds, k, cs, i) && i < |cs| && !cs[i].status.Disputed?
    ensures LockstepFrom(ds, k, cs, i + 1)
  {
  }

  /** Claim identifiers are positions, counted from one. */
  predicate Numbered(cs: seq<Claim>) {
    forall i :: 0 <= i < |cs| ==> cs[i].id == i + 1
  }

  lemma ApplyOneForm(s: State, d: DecisionInput, i: nat)
    requires s.terms.tenant != s.terms.landlord
    requires i < |s.claims| && s.claims[i].id == i + 1 && s.claims[i].status.Disputed? && Answers(d, s.claims[i])
    requires s.claims[i].amount <= s.accounting.unallocated
    ensures var o := ApplyOne(s, d); var c := s.claims[i];
            && o.Done? && SameFrame(s, o.state) && LogKept(s, o.state) && o.state.phase == s.phase
            && Paid(s, o.state, c.amount - d.landlordAmount, d.landlordAmount)
            && o.state.claims == s.claims[i := Award(c, d.landlordAmount)]
            && o.state.proposal == if c.amount > 0 && s.proposal.proposalId != 0 then NO_PROPOSAL else s.proposal
  {
    hide AllocateCredit, LogAgrees, Folded, Absorb, Emit;
    var c := s.claims[i];
    CreditForm(s, s.terms.landlord, d.landlordAmount, DecisionLandlord);
    var s1 := AllocateCredit(s, s.terms.landlord, d.landlordAmount, DecisionLandlord).state;
    CreditForm(s1, s.terms.tenant, c.amount - d.landlordAmount, DecisionTenant);
  }

  /** A vector in lockstep with the disputed claims always applies: each award goes to the landlord,
      the rest of each claim to the tenant, and exactly the disputed amount is allocated. */
  lemma {:induction false} ApplyFromForm(s: State, ds: seq<DecisionInput>, i: nat, k: nat, total: nat)
    requires s.terms.tenant != s.terms.landlord
    requires Numbered(s.claims) && LockstepFrom(ds, k, s.claims, i)
    requires TotalFrom(s.claims, i, DisputedPart) <= s.accounting.unallocated
    requires total + TotalFrom(s.claims, i, DisputedPart) == s.activeCase.disputedAmount
    ensures AwardsFrom(ds, k) <= TotalFrom(s.claims, i, DisputedPart)
    ensures var o := ApplyFrom(s, ds, k, total);
            && o.Done? && SameFrame(s, o.state) && LogKept(s, o.state) && o.state.phase == s.phase
            && Paid(s, o.state, TotalFrom(s.claims, i, DisputedPart) - AwardsFrom(ds, k), AwardsFrom(ds, k))
            && o.state.claims == AwardedFrom(s.claims, i, ds, k)
            && o.state.proposal == if TotalFrom(s.claims, i, DisputedPart) > 0 && s.proposal.proposalId != 0
                                   then NO_PROPOSAL else s.proposal
    decreases |s.claims| - i
  {
    hide ApplyOne, LockstepFrom, LogAgrees, Folded, Absorb;
    if i >= |s.claims| {
      LockstepEnd(s.claims, i, ds, k);
    } else if s.claims[i].status.Disputed? {
      var c := s.claims[i];
      LockstepHead(s.claims, i, ds, k);
      ApplyOneForm(s, ds[k], i);
      var s1 := ApplyOne(s, ds[k]).state;
      SameTotals(s.claims, s1.claims, i + 1);
      ApplyFromForm(s1, ds, i + 1, k + 1, total + c.amount);
    } else {
      LockstepSkip(s.claims, i, ds, k);
      ApplyFromForm(s, ds, i + 1, k, total);
    }
  }

  /** After the awards every claim that was disputed is allocated in full; the others are untouched. */
  lemma {:induction false} AwardedAt(cs: seq<Claim>, i: nat, ds: seq<DecisionInput>, k: nat)
    requires LockstepFrom(ds, k, cs, i)
    ensures var r := AwardedFrom(cs, i, ds, k);
            forall j :: 0 <= j < |cs| ==>
              if j >= i && cs[j].status.Disputed?
              then r[j].landlordAllocated <= cs[j].amount && r[j] == Award(cs[j], r[j].landlordAllocated)
              else r[j] == cs[j]
    decreases |cs| - i
  {
    if i < |cs| {
      if cs[i].status.Disputed? {
        LockstepHead(cs, i, ds, k);
        AwardedAt(cs[i := Award(cs[i], ds[k].landlordAmount)], i + 1, ds, k + 1);
      } else {
        AwardedAt(cs, i + 1, ds, k);
      }
    }
  }
}

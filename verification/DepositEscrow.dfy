/** One lease's escrow as an object that updates its storage in place (contracts/src/DepositEscrow.sol).
    Every external method is proved to do exactly what its specification in EscrowSpec says: it reports the
    same error and changes nothing, or leaves exactly the specified state and event log. */
module DepositEscrowContract {
  import opened Options
  import opened RentBondRules
  import opened EscrowTypes
  import opened ClaimTotals
  import opened EventLog
  import Spec = EscrowSpec

  /** The method did what the outcome says, and a revert rolled everything back. */
  predicate Matches(o: Outcome, before: State, after: State, err: Option<Error>) {
    err == ErrorOf(o) && after == After(o, before)
  }

  /** An internal step did what the outcome says; after a revert its caller rolls back. */
  predicate Reaches(o: Outcome, after: State, err: Option<Error>) {
    err == ErrorOf(o) && (o.Done? ==> after == o.state)
  }

  class DepositEscrow {
    const terms: Terms
    var phase: Phase
    var tenantAccepted: bool
    var accounting: Accounting
    var claims: seq<Claim>
    var activeCase: ActiveCase
    var schedule: Schedule
    var decisions: seq<DecisionInput>
    var proposal: SettlementProposal
    var checkout: CheckoutRequest
    var claimsSubmitted: bool
    var claimsClosed: bool
    var totalClaimAmount: nat
    var caseNonce: nat
    var proposalNonce: nat
    var log: seq<Event>

    /** The storage as a value. */
    function Current(): State
      reads this
    {
      State(terms, phase, tenantAccepted, accounting, claims, activeCase, schedule, decisions, proposal,
            checkout, claimsSubmitted, claimsClosed, totalClaimAmount, caseNonce, proposalNonce, log)
    }

    constructor (t: Terms)
      ensures Current() == Spec.Fresh(t)
    {
      terms := t;
      phase := Phase.AwaitingAcceptance;
      tenantAccepted, claimsSubmitted, claimsClosed := false, false, false;
      accounting, claims, activeCase, schedule := NO_ACCOUNTING, [], NO_CASE, NO_SCHEDULE;
      decisions, proposal, checkout := [], NO_PROPOSAL, NO_CHECKOUT;
      totalClaimAmount, caseNonce, proposalNonce, log := 0, 0, 0, [];
    }

    /** Deployment: the terms are checked before the contract exists. */
    static method Deploy(t: Terms, factory: Address, now: nat) returns (err: Option<Error>, escrow: DepositEscrow?)
      ensures err == ErrorOf(Spec.Deploy(t, factory, now))
      ensures err.None? ==> escrow != null && fresh(escrow) && escrow.Current() == Spec.Deploy(t, factory, now).state
    {
      if factory == ZERO_ADDRESS { return Some(InvalidAddress), null; }
      if t.leaseId == ZERO_HASH { return Some(InvalidTerms), null; }
      if t.tenant == ZERO_ADDRESS || t.landlord == ZERO_ADDRESS { return Some(InvalidAddress), null; }
      if t.tenant == t.landlord { return Some(InvalidTerms), null; }
      if t.primaryResolver == ZERO_ADDRESS { return Some(InvalidAddress), null; }
      if t.fallbackResolver == ZERO_ADDRESS { return Some(InvalidAddress), null; }
      if t.primaryResolver == t.fallbackResolver { return Some(InvalidTerms), null; }
      if t.tenant in {t.primaryResolver, t.fallbackResolver} || t.landlord in {t.primaryResolver, t.fallbackResolver} {
        return Some(InvalidTerms), null;
      }
      if t.token == ZERO_ADDRESS || t.registryAddress == ZERO_ADDRESS { return Some(InvalidAddress), null; }
      if !ValidDeposit(t.depositAmount) { return Some(InvalidTerms), null; }
      if t.termsHash == ZERO_HASH || t.serviceProfileId == ZERO_HASH { return Some(InvalidTerms), null; }
      if t.serviceTermsHash == ZERO_HASH || t.timingProfileId == NoDigest { return Some(InvalidTerms), null; }
      if !ValidTiming(t.timing) { return Some(InvalidTerms), null; }
      if t.timeoutPolicy != TIMEOUT_RETURN_UNAWARDED_TO_TENANT { return Some(InvalidTerms), null; }
      if t.timingProfileId != TimingDigest(t.timing, t.timeoutPolicy) { return Some(InvalidTerms), null; }
      if t.acceptDeadline <= now || t.leaseEndAt <= now { return Some(InvalidTerms), null; }
      if t.acceptDeadline >= t.leaseEndAt { return Some(InvalidTerms), null; }
      if HardEndAt(t.leaseEndAt, t.timing) > UINT_MAX { return Some(ArithmeticPanic), null; }
      if t.hardEndAt != HardEndAt(t.leaseEndAt, t.timing) { return Some(InvalidTerms), null; }
      escrow := new DepositEscrow(t);
      err := None;
    }

    // ---------- internal steps ----------

    /** Undo everything since `s`, as the chain does when a call reverts. */
    method Rollback(s: State)
      requires s.terms == terms
      modifies this
      ensures Current() == s
    {
      RollbackClaims(s);
      RollbackCase(s);
      phase, tenantAccepted, accounting, log := s.phase, s.tenantAccepted, s.accounting, s.log;
    }

    method RollbackClaims(s: State)
      modifies this`claims, this`claimsSubmitted, this`claimsClosed, this`totalClaimAmount, this`schedule
      ensures claims == s.claims && claimsSubmitted == s.claimsSubmitted && claimsClosed == s.claimsClosed
      ensures totalClaimAmount == s.totalClaimAmount && schedule == s.schedule
    {
      claims, claimsSubmitted, claimsClosed := s.claims, s.claimsSubmitted, s.claimsClosed;
      totalClaimAmount, schedule := s.totalClaimAmount, s.schedule;
    }

    method RollbackCase(s: State)
      modifies this`activeCase, this`decisions, this`proposal, this`checkout, this`caseNonce, this`proposalNonce
      ensures activeCase == s.activeCase && decisions == s.decisions && proposal == s.proposal
      ensures checkout == s.checkout && caseNonce == s.caseNonce && proposalNonce == s.proposalNonce
    {
      activeCase, decisions, proposal := s.activeCase, s.decisions, s.proposal;
      checkout, caseNonce, proposalNonce := s.checkout, s.caseNonce, s.proposalNonce;
    }

    method Emit(e: Event)
      modifies this`log
      ensures Current() == Spec.Emit(old(Current()), e)
    {
      log := log + [e];
    }

    method InvalidateSettlement()
      modifies this`accounting, this`proposal
      ensures Current() == Spec.InvalidateSettlement(old(Current()))
    {
      accounting := accounting.(revision := accounting.revision + 1);
      if proposal.proposalId != 0 { proposal := NO_PROPOSAL; }
    }

    method AllocateCredit(beneficiary: Address, amount: nat, source: Source) returns (err: Option<Error>)
      modifies this`accounting, this`proposal, this`log
      ensures Matches(Spec.AllocateCredit(old(Current()), beneficiary, amount, source), old(Current()), Current(), err)
    {
      hide Folded, Spec.Emit;
      if beneficiary != terms.tenant && beneficiary != terms.landlord { return Some(Unauthorized); }
      if amount == 0 { return None; }
      var a := accounting;
      if amount > a.unallocated { return Some(AmountMismatch); }
      a := a.(unallocated := a.unallocated - amount);
      if beneficiary == terms.tenant {
        a := a.(tenantCredit := a.tenantCredit + amount);
      } else {
        a := a.(landlordCredit := a.landlordCredit + amount);
      }
      accounting := a.(revision := a.revision + 1);
      if proposal.proposalId != 0 { proposal := NO_PROPOSAL; }
      Emit(CreditAllocated(beneficiary, amount, source));
      err := None;
    }

    method AllocateClaimToLandlord(i: nat) returns (err: Option<Error>)
      requires i < |claims|
      modifies this`accounting, this`proposal, this`log, this`claims
      ensures Matches(Spec.AllocateClaimToLandlord(old(Current()), i), old(Current()), Current(), err)
    {
      if claims[i].status.Allocated? { return Some(ClaimAlreadyFinalized); }
      err := AllocateCredit(terms.landlord, claims[i].amount, AcceptedClaim);
      if err.Some? { return; }
      claims := claims[i := claims[i].(landlordAllocated := claims[i].amount, status := ClaimStatus.Allocated)];
    }

    method AllocateClaimToTenant(i: nat) returns (err: Option<Error>)
      requires i < |claims|
      modifies this`accounting, this`proposal, this`log, this`claims
      ensures Matches(Spec.AllocateClaimToTenant(old(Current()), i), old(Current()), Current(), err)
    {
      if claims[i].status.Allocated? { return Some(ClaimAlreadyFinalized); }
      err := AllocateCredit(terms.tenant, claims[i].amount, WaivedClaim);
      if err.Some? { return; }
      claims := claims[i := claims[i].(tenantAllocated := claims[i].amount, status := ClaimStatus.Allocated)];
    }

    method RefreshAllocationPhase()
      modifies this`phase
      ensures Current() == Spec.RefreshAllocationPhase(old(Current()))
    {
      if !claimsClosed { return; }
      if accounting.unallocated == 0 {
        phase := Phase.Allocated;
        return;
      }
      var hasOpen := false;
      var i := 0;
      while i < |claims| && !hasOpen
        invariant i <= |claims|
        invariant hasOpen <==> exists j :: 0 <= j < i && Spec.IsOpen(claims[j])
      {
        if claims[i].status.Disputed? || claims[i].status.Pending? { hasOpen := true; }
        i := i + 1;
      }
      if !hasOpen { phase := Phase.Allocated; }
    }

    method StartClaims(startedAt: nat) returns (err: Option<Error>)
      modifies this`schedule, this`phase, this`log
      ensures Matches(Spec.StartClaims(old(Current()), startedAt), old(Current()), Current(), err)
    {
      hide Folded, Spec.Emit;
      if schedule.started { return None; }
      var start := if startedAt < terms.leaseEndAt then startedAt else terms.leaseEndAt;
      var claimDeadline := start + terms.timing.claim;
      var responseDeadline := claimDeadline + terms.timing.response;
      var evidenceDeadline := responseDeadline + terms.timing.evidence;
      var primaryDeadline := evidenceDeadline + terms.timing.primary;
      var latestExit := primaryDeadline + terms.timing.challenge + terms.timing.fallbackResolver
                        + terms.timing.exitNotice;
      if latestExit > terms.hardEndAt { return Some(InvalidTerms); }
      schedule := Schedule(start, claimDeadline, responseDeadline, evidenceDeadline, primaryDeadline, true);
      phase := Phase.ClaimsOpen;
      Emit(ClaimsOpened(claimDeadline));
      err := None;
    }

    method InvalidateCheckoutCase()
      modifies this`activeCase, this`checkout, this`decisions, this`log
      ensures Current() == Spec.InvalidateCheckoutCase(old(Current()))
    {
      hide Folded, Spec.Emit;
      if activeCase.exists_ && activeCase.caseType.Checkout? && !activeCase.phase.Finalized? {
        activeCase := activeCase.(phase := CasePhase.Finalized);
        Emit(CheckoutCaseResolved(activeCase.caseId, false));
      }
      if checkout.exists_ && !checkout.resolved { checkout := checkout.(resolved := true, agreed := false); }
      decisions := [];
    }

    method ResolveCheckout(approved: bool)
      modifies this`activeCase, this`checkout, this`decisions, this`accounting, this`proposal, this`log
      ensures Current() == Spec.ResolveCheckout(old(Current()), approved)
    {
      hide Folded, Spec.Emit, Spec.InvalidateSettlement;
      activeCase := activeCase.(phase := CasePhase.Finalized);
      checkout := checkout.(resolved := true, agreed := approved);
      decisions := [];
      InvalidateSettlement();
      Emit(CheckoutCaseResolved(activeCase.caseId, approved));
    }

    method FinishCheckoutCase(now: nat, approved: bool) returns (err: Option<Error>)
      modifies this
      ensures Reaches(Spec.FinishCheckoutCase(old(Current()), now, approved), Current(), err)
    {
      hide Spec.StartClaims, Spec.ResolveCheckout, Folded;
      ResolveCheckout(approved);
      if approved {
        err := StartClaims(if now < terms.leaseEndAt then now else terms.leaseEndAt);
      } else if now >= terms.leaseEndAt {
        err := StartClaims(terms.leaseEndAt);
      } else {
        phase := Phase.Active;
        err := None;
      }
    }

    /** Close the claims: return the unclaimed part, pay accepted and waived claims, dispute the rest. */
    method CloseClaimsInternal() returns (err: Option<Error>)
      modifies this
      ensures Reaches(Spec.CloseClaimsInternal(old(Current())), Current(), err)
    {
      hide Spec.SettleOne, Spec.AllocateCredit, Folded, Absorb;
      if claimsClosed { return None; }
      InvalidateSettlement();
      claimsClosed := true;
      if totalClaimAmount > accounting.fundedAmount { return Some(ArithmeticPanic); }
      var unclaimed := accounting.fundedAmount - totalClaimAmount;
      err := AllocateCredit(terms.tenant, unclaimed, Unclaimed);
      if err.Some? { return; }
      err := SettleClaims(unclaimed);
    }

    /** The loop over the claims, and what it ends with. */
    method SettleClaims(unclaimed: nat) returns (err: Option<Error>)
      modifies this
      ensures Reaches(Spec.SettleFrom(old(Current()), 0, 0, 0, unclaimed), Current(), err)
    {
      hide Spec.SettleOne, Folded, Absorb, Spec.Emit;
      ghost var start := Current();
      var accepted: nat, disputed: nat, i: nat := 0, 0, 0;
      while i < |claims|
        invariant i <= |claims| == |start.claims|
        invariant Spec.SettleFrom(Current(), i, accepted, disputed, unclaimed)
               == Spec.SettleFrom(start, 0, 0, 0, unclaimed)
        decreases |start.claims| - i
      {
        var c := claims[i];
        ghost var before := Current();
        err := SettleClaim(i);
        if err.Some? { return; }
        assert Spec.SettleOne(before, i) == Done(Current());
        SameLength(before, i);
        accepted := accepted + (if c.status.Accepted? then c.amount else 0);
        disputed := disputed + (if c.status.Accepted? || c.status.Waived? then 0 else c.amount);
        i := i + 1;
      }
      phase := if disputed == 0 then Phase.Allocated else Phase.ClaimsReview;
      Emit(ClaimsClosed(unclaimed, accepted, disputed));
      err := None;
    }

    /** One round of the closing loop. */
    method SettleClaim(i: nat) returns (err: Option<Error>)
      requires i < |claims|
      modifies this
      ensures Reaches(Spec.SettleOne(old(Current()), i), Current(), err)
    {
      if claims[i].status.Accepted? {
        err := AllocateClaimToLandlord(i);
      } else if claims[i].status.Waived? {
        err := AllocateClaimToTenant(i);
      } else {
        if claims[i].status.Pending? {
          claims := claims[i := claims[i].(status := ClaimStatus.Disputed)];
        } else {
          assert claims[i := claims[i]] == claims;
        }
        err := None;
      }
    }

    static lemma SameLength(s: State, i: nat)
      requires i < |s.claims| && Spec.SettleOne(s, i).Done?
      ensures |Spec.SettleOne(s, i).state.claims| == |s.claims|
    {
      hide Spec.AllocateCredit;
      if s.claims[i].status.Accepted? { CreditKeepsClaims(s, s.terms.landlord, s.claims[i].amount, AcceptedClaim); }
      if s.claims[i].status.Waived? { CreditKeepsClaims(s, s.terms.tenant, s.claims[i].amount, WaivedClaim); }
    }

    /** How many claims are disputed. */
    method CountDisputed() returns (count: nat)
      ensures count == |Spec.DisputedFrom(claims, 0)|
    {
      count := 0;
      var i: nat := 0;
      while i < |claims|
        invariant i <= |claims| && count + |Spec.DisputedFrom(claims, i)| == |Spec.DisputedFrom(claims, 0)|
      {
        if claims[i].status.Disputed? { count := count + 1; }
        i := i + 1;
      }
    }

    /** The claims disputed from claim `i` on are the last ones of `disputed`, from position `k` on. */
    static predicate Remaining(cs: seq<Claim>, i: nat, disputed: seq<Claim>, k: nat) {
      k <= |disputed| && disputed[k..] == Spec.DisputedFrom(cs, i)
    }

    static lemma RemainingHead(cs: seq<Claim>, i: nat, disputed: seq<Claim>, k: nat)
      requires Remaining(cs, i, disputed, k) && i < |cs|
      ensures if cs[i].status.Disputed?
              then k < |disputed| && disputed[k] == cs[i] && Remaining(cs, i + 1, disputed, k + 1)
              else Remaining(cs, i + 1, disputed, k)
    {
      if cs[i].status.Disputed? {
        assert disputed[k..] == [cs[i]] + Spec.DisputedFrom(cs, i + 1);
        assert disputed[k..][0] == disputed[k] && disputed[k..][1..] == disputed[k + 1..];
      }
    }

    /** Does the vector answer exactly the disputed claims, in order? Count them, then compare one by one. */
    method ValidateDecisionVector(result: seq<DecisionInput>) returns (valid: bool)
      ensures valid <==> Spec.ValidDecision(claims, result)
    {
      hide Spec.Answers, Remaining;
      if |result| == 0 { return false; }
      ghost var disputed := Spec.DisputedFrom(claims, 0);
      var disputedCount := CountDisputed();
      if |result| != disputedCount { return false; }
      var resultIndex: nat, i: nat := 0, 0;
      RemainingAll(claims);
      while i < |claims|
        invariant i <= |claims| && resultIndex <= |result| == |disputed|
        invariant Remaining(claims, i, disputed, resultIndex)
        invariant forall k :: 0 <= k < resultIndex ==> Spec.Answers(result[k], disputed[k])
      {
        RemainingHead(claims, i, disputed, resultIndex);
        if claims[i].status.Disputed? {
          var matches := AnswersClaim(result[resultIndex], claims[i]);
          if !matches { return false; }
          resultIndex := resultIndex + 1;
        }
        i := i + 1;
      }
      RemainingNone(claims, disputed, resultIndex);
      valid := true;
    }

    static lemma RemainingAll(cs: seq<Claim>)
      ensures Remaining(cs, 0, Spec.DisputedFrom(cs, 0), 0)
    {
    }

    static lemma RemainingNone(cs: seq<Claim>, disputed: seq<Claim>, k: nat)
      requires Remaining(cs, |cs|, disputed, k)
      ensures k == |disputed|
    {
    }

    method AnswersClaim(d: DecisionInput, c: Claim) returns (ok: bool)
      ensures ok <==> Spec.Answers(d, c)
    {
      ok := !(d.claimId != c.id || d.landlordAmount > c.amount || !IsBusinessAmount(d.landlordAmount, true));
    }

    /** One entry of the decision vector. */
    method ApplyEntry(d: DecisionInput) returns (err: Option<Error>)
      modifies this`accounting, this`proposal, this`log, this`claims
      ensures Reaches(Spec.ApplyOne(old(Current()), d), Current(), err)
    {
      hide Spec.AllocateCredit, Folded, Absorb;
      if d.claimId == 0 || d.claimId > |claims| { return Some(ClaimNotFound); }
      var k := d.claimId - 1;
      var c := claims[k];
      if !c.status.Disputed? { return Some(InvalidDecisionVector); }
      if d.landlordAmount > c.amount { return Some(ArithmeticPanic); }
      var tenantAmount := c.amount - d.landlordAmount;
      ghost var s0 := Current();
      err := AllocateCredit(terms.landlord, d.landlordAmount, DecisionLandlord);
      if err.Some? { return; }
      ghost var s1 := Current();
      CreditKeepsClaims(s0, terms.landlord, d.landlordAmount, DecisionLandlord);
      err := AllocateCredit(terms.tenant, tenantAmount, DecisionTenant);
      if err.Some? { return; }
      CreditKeepsClaims(s1, terms.tenant, tenantAmount, DecisionTenant);
      claims := claims[k := c.(landlordAllocated := d.landlordAmount, tenantAllocated := tenantAmount,
                               status := ClaimStatus.Allocated)];
    }

    static lemma CreditKeepsClaims(s: State, to: Address, amount: nat, source: Source)
      requires Spec.AllocateCredit(s, to, amount, source).Done?
      ensures var t := Spec.AllocateCredit(s, to, amount, source).state;
        t.claims == s.claims && t.terms == s.terms && t.decisions == s.decisions && t.activeCase == s.activeCase
    {
      hide Folded;
    }

    static lemma EntryKeeps(s: State, d: DecisionInput)
      requires Spec.ApplyOne(s, d).Done?
      ensures var t := Spec.ApplyOne(s, d).state; t.decisions == s.decisions && t.activeCase == s.activeCase
    {
      hide Spec.AllocateCredit;
      var c := s.claims[d.claimId - 1];
      CreditKeepsClaims(s, s.terms.landlord, d.landlordAmount, DecisionLandlord);
      var s1 := Spec.AllocateCredit(s, s.terms.landlord, d.landlordAmount, DecisionLandlord).state;
      CreditKeepsClaims(s1, s1.terms.tenant, c.amount - d.landlordAmount, DecisionTenant);
    }

    /** Apply the stored decision vector. */
    method ApplyDecision() returns (err: Option<Error>)
      modifies this`accounting, this`proposal, this`log, this`claims
      ensures Reaches(Spec.ApplyDecision(old(Current())), Current(), err)
    {
      hide Spec.ApplyOne, Folded;
      ghost var start := Current();
      var total: nat, k: nat := 0, 0;
      while k < |decisions|
        invariant k <= |decisions| && decisions == start.decisions && activeCase == start.activeCase
        invariant Spec.ApplyFrom(Current(), decisions, k, total) == Spec.ApplyFrom(start, decisions, 0, 0)
      {
        var d := decisions[k];
        ghost var before := Current();
        err := ApplyEntry(d);
        if err.Some? { return; }
        EntryKeeps(before, d);
        FoundBy(before, d);
        total := total + claims[d.claimId - 1].amount;
        k := k + 1;
      }
      if total != activeCase.disputedAmount { return Some(InvalidDecisionVector); }
      err := None;
    }

    /** An applied entry names a claim, whose amount it keeps. */
    static lemma FoundBy(s: State, d: DecisionInput)
      requires Spec.ApplyOne(s, d).Done?
      ensures var t := Spec.ApplyOne(s, d).state;
        && 0 < d.claimId <= |s.claims| == |t.claims|
        && t.claims[d.claimId - 1].amount == s.claims[d.claimId - 1].amount
    {
      hide Spec.AllocateCredit;
      var c := s.claims[d.claimId - 1];
      CreditKeepsClaims(s, s.terms.landlord, d.landlordAmount, DecisionLandlord);
      var s1 := Spec.AllocateCredit(s, s.terms.landlord, d.landlordAmount, DecisionLandlord).state;
      CreditKeepsClaims(s1, s1.terms.tenant, c.amount - d.landlordAmount, DecisionTenant);
    }

    // ---------- external functions ----------

    method AcceptTerms(sender: Address, now: nat, termsHash: Hash) returns (err: Option<Error>)
      modifies this`tenantAccepted, this`phase, this`log
      ensures Matches(Spec.AcceptTerms(old(Current()), sender, now, termsHash), old(Current()), Current(), err)
    {
      hide Folded, Spec.Emit;
      if sender != terms.tenant { return Some(Unauthorized); }
      if !phase.AwaitingAcceptance? { return Some(InvalidState); }
      if now >= terms.acceptDeadline { return Some(DeadlinePassed); }
      if termsHash != terms.termsHash { return Some(HashMismatch); }
      tenantAccepted := true;
      phase := Phase.AwaitingFunding;
      Emit(TermsAccepted(terms.tenant, termsHash));
      err := None;
    }

    method CancelUnfunded(sender: Address) returns (err: Option<Error>)
      modifies this`phase, this`log
      ensures Matches(Spec.CancelUnfunded(old(Current()), sender), old(Current()), Current(), err)
    {
      hide Folded, Spec.Emit;
      if !Spec.IsParty(terms, sender) { return Some(Unauthorized); }
      if !phase.AwaitingAcceptance? && !phase.AwaitingFunding? { return Some(InvalidState); }
      phase := Phase.Cancelled;
      Emit(LeaseCancelled(sender, false));
      err := None;
    }

    method ExpireUnfunded(sender: Address, now: nat) returns (err: Option<Error>)
      modifies this`phase, this`log
      ensures Matches(Spec.ExpireUnfunded(old(Current()), sender, now), old(Current()), Current(), err)
    {
      hide Folded, Spec.Emit;
      if !phase.AwaitingAcceptance? && !phase.AwaitingFunding? { return Some(InvalidState); }
      if now < terms.acceptDeadline { return Some(DeadlineNotReached); }
      phase := Phase.Cancelled;
      Emit(LeaseCancelled(sender, true));
      err := None;
    }

    /** Funding; the registry's answer and how the token call went are parameters. */
    method Fund(sender: Address, now: nat, amount: nat, registry: RegistryAnswer, token: TokenAnswer)
      returns (err: Option<Error>)
      modifies this`accounting, this`phase, this`log
      ensures Matches(Spec.Fund(old(Current()), sender, now, amount, registry, token), old(Current()), Current(), err)
    {
      hide Folded, Spec.Emit;
      if sender != terms.tenant { return Some(Unauthorized); }
      if phase.Active? || accounting.fundedAmount != 0 { return Some(AlreadyFunded); }
      if !phase.AwaitingFunding? || !tenantAccepted { return Some(InvalidState); }
      if now >= terms.acceptDeadline { return Some(DeadlinePassed); }
      if amount != terms.depositAmount { return Some(AmountMismatch); }
      var eligible := Spec.RegistryCheck(registry);
      if eligible.Fail? { return Some(eligible.error); }
      var moved := Spec.TokenCheck(token);
      if moved.Fail? { return Some(moved.error); }
      accounting := accounting.(fundedAmount := amount, unallocated := amount);
      phase := Phase.Active;
      Emit(Funded(terms.tenant, amount));
      err := None;
    }

    method RequestCheckout(sender: Address, now: nat, evidenceHash: Hash) returns (err: Option<Error>)
      modifies this`accounting, this`proposal, this`checkout, this`phase, this`log
      ensures Matches(Spec.RequestCheckout(old(Current()), sender, now, evidenceHash), old(Current()), Current(), err)
    {
      hide Folded, Spec.Emit, Spec.InvalidateSettlement;
      if !Spec.IsParty(terms, sender) { return Some(Unauthorized); }
      if accounting.fundedAmount == 0 || !phase.Active? { return Some(InvalidState); }
      if now >= terms.leaseEndAt { return Some(DeadlinePassed); }
      if evidenceHash == ZERO_HASH { return Some(InvalidTerms); }
      if checkout.exists_ {
        if !checkout.resolved { return Some(InvalidState); }
        if now < checkout.requestedAt + CHECKOUT_RETRY_DELAY || evidenceHash == checkout.evidenceHash {
          return Some(InvalidTerms);
        }
      }
      var responseDeadline := now + terms.timing.checkoutResponse;
      if responseDeadline > terms.leaseEndAt { responseDeadline := terms.leaseEndAt; }
      InvalidateSettlement();
      checkout := CheckoutRequest(sender, evidenceHash, now, responseDeadline, true, false, false, false, false);
      phase := Phase.CheckoutRequested;
      Emit(CheckoutWasRequested(sender, evidenceHash, responseDeadline));
      err := None;
    }

    method RespondCheckout(sender: Address, now: nat, agree: bool, evidenceHash: Hash) returns (err: Option<Error>)
      modifies this
      ensures Matches(Spec.RespondCheckout(old(Current()), sender, now, agree, evidenceHash),
                      old(Current()), Current(), err)
    {
      hide Spec.StartClaims, Folded, Spec.Emit, Spec.InvalidateSettlement, Spec.IsParty;
      if !Spec.IsParty(terms, sender) { return Some(Unauthorized); }
      if !checkout.exists_ || sender == checkout.requester { return Some(InvalidState); }
      if !phase.CheckoutRequested? { return Some(InvalidState); }
      if checkout.responded { return Some(InvalidState); }
      if now >= checkout.responseDeadline { return Some(DeadlinePassed); }
      if evidenceHash != checkout.evidenceHash { return Some(HashMismatch); }
      var saved := Current();
      checkout := checkout.(responded := true, agreed := agree);
      InvalidateSettlement();
      if agree {
        checkout := checkout.(resolved := true);
        err := StartClaims(now);
        if err.Some? { Rollback(saved); return; }
      }
      Emit(CheckoutResponded(sender, agree, evidenceHash));
      err := None;
    }

    method BeginCheckoutCase(now: nat, evidenceDeadline: nat, primaryDeadline: nat)
      modifies this`accounting, this`proposal, this`checkout, this`activeCase, this`caseNonce, this`phase, this`log
      ensures Current() == Spec.BeginCheckoutCase(old(Current()), now, evidenceDeadline, primaryDeadline)
    {
      hide Folded, Spec.Emit, Spec.InvalidateSettlement;
      InvalidateSettlement();
      caseNonce := caseNonce + 1;
      checkout := checkout.(caseOpened := true);
      activeCase := NO_CASE.(caseId := caseNonce, caseType := CaseType.Checkout, openedAt := now,
                             evidenceDeadline := evidenceDeadline, primaryDeadline := primaryDeadline,
                             phase := CasePhase.Primary, exists_ := true);
      phase := Phase.CheckoutCase;
      Emit(CheckoutCaseOpened(checkout.requester));
      Emit(CaseOpened(caseNonce, CaseType.Checkout, 0));
    }

    method OpenCheckoutCase(now: nat) returns (err: Option<Error>)
      modifies this`accounting, this`proposal, this`checkout, this`activeCase, this`caseNonce, this`phase, this`log
      ensures Matches(Spec.OpenCheckoutCase(old(Current()), now), old(Current()), Current(), err)
    {
      hide Spec.BeginCheckoutCase;
      if !checkout.exists_ || checkout.resolved || checkout.caseOpened || !phase.CheckoutRequested? {
        return Some(InvalidState);
      }
      if !checkout.responded && now < checkout.responseDeadline { return Some(DeadlineNotReached); }
      if now >= terms.leaseEndAt { return Some(DeadlinePassed); }
      var evidenceDeadline := now + terms.timing.evidence;
      if evidenceDeadline > terms.leaseEndAt { evidenceDeadline := terms.leaseEndAt; }
      var primaryDeadline := evidenceDeadline + terms.timing.primary;
      if primaryDeadline > terms.leaseEndAt { primaryDeadline := terms.leaseEndAt; }
      BeginCheckoutCase(now, evidenceDeadline, primaryDeadline);
      err := None;
    }

    method StartScheduledSettlement(now: nat) returns (err: Option<Error>)
      modifies this
      ensures Matches(Spec.StartScheduledSettlement(old(Current()), now), old(Current()), Current(), err)
    {
      hide Spec.StartClaims, Spec.InvalidateCheckoutCase, Spec.InvalidateSettlement;
      if schedule.started { return None; }
      if !phase.Active? && !phase.CheckoutRequested? && !phase.CheckoutCase? { return Some(InvalidState); }
      if now < terms.leaseEndAt { return Some(DeadlineNotReached); }
      if now >= terms.hardEndAt { return Some(DeadlinePassed); }
      var saved := Current();
      InvalidateSettlement();
      InvalidateCheckoutCase();
      err := StartClaims(terms.leaseEndAt);
      if err.Some? { Rollback(saved); }
    }

    /** The loop of `submitClaims`: check and push every input; after a failed check the caller rolls back. */
    method PushClaims(inputs: seq<ClaimInput>) returns (err: Option<Error>, total: nat)
      modifies this`claims
      ensures var check := Spec.CheckInputs(inputs, 0, 0, accounting.fundedAmount);
        && (check.Fail? ==> err == Some(check.error))
        && (check.Pass? ==> err.None? && total == Spec.InputTotal(inputs, 0)
                            && claims == old(claims) + Spec.NewClaims(inputs))
    {
      total := 0;
      var i: nat := 0;
      while i < |inputs|
        invariant i <= |inputs| && total + Spec.InputTotal(inputs, i) == Spec.InputTotal(inputs, 0)
        invariant claims == old(claims) + Spec.NewClaims(inputs)[..i]
        invariant Spec.CheckInputs(inputs, i, total, accounting.fundedAmount)
               == Spec.CheckInputs(inputs, 0, 0, accounting.fundedAmount)
      {
        var input := inputs[i];
        if !IsBusinessAmount(input.amount, false) || input.commitment == ZERO_HASH {
          return Some(InvalidCommitment), total;
        }
        if total + input.amount > UINT_MAX { return Some(ArithmeticPanic), total; }
        total := total + input.amount;
        if total > accounting.fundedAmount { return Some(ClaimsExceedDeposit), total; }
        claims := claims + [Claim(i + 1, input.amount, input.commitment, ZERO_HASH, ClaimStatus.Pending, 0, 0)];
        i := i + 1;
      }
      err := None;
    }

    method SubmitClaims(sender: Address, now: nat, inputs: seq<ClaimInput>) returns (err: Option<Error>)
      modifies this`claims, this`claimsSubmitted, this`totalClaimAmount, this`accounting, this`proposal, this`log
      ensures Matches(Spec.SubmitClaims(old(Current()), sender, now, inputs), old(Current()), Current(), err)
    {
      hide Spec.CheckInputs, Spec.NewClaims, Folded, Spec.Emit, Spec.InvalidateSettlement;
      if sender != terms.landlord { return Some(Unauthorized); }
      if !phase.ClaimsOpen? { return Some(InvalidState); }
      if claimsSubmitted { return Some(ClaimsAlreadySubmitted); }
      if now >= schedule.claimDeadline { return Some(DeadlinePassed); }
      if now >= terms.hardEndAt { return Some(DeadlinePassed); }
      if |inputs| == 0 || |inputs| > 10 { return Some(TooManyClaims); }
      var saved := claims;
      var total;
      err, total := PushClaims(inputs);
      if err.Some? { claims := saved; return; }
      claimsSubmitted := true;
      totalClaimAmount := total;
      InvalidateSettlement();
      Emit(ClaimsSubmitted(terms.landlord, |inputs|, total));
      err := None;
    }

    method Answer(claimId: nat, accept: bool, response: Hash) returns (err: Option<Error>)
      requires 0 < claimId <= |claims|
      modifies this
      ensures Matches(Spec.Answer(old(Current()), claimId, accept, response), old(Current()), Current(), err)
    {
      hide Spec.AllocateClaimToLandlord, Spec.RefreshAllocationPhase, Folded, Spec.Emit, Spec.InvalidateSettlement;
      var saved := Current();
      var c := claims[claimId - 1];
      c := c.(status := if accept then ClaimStatus.Accepted else ClaimStatus.Disputed, responseCommitment := response);
      claims := claims[claimId - 1 := c];
      if claimsClosed && accept {
        err := AllocateClaimToLandlord(claimId - 1);
        if err.Some? { Rollback(saved); return; }
      } else {
        InvalidateSettlement();
      }
      RefreshAllocationPhase();
      Emit(ClaimResponded(claimId, accept, response));
      err := None;
    }

    method RespondClaim(sender: Address, now: nat, claimId: nat, accept: bool, response: Hash)
      returns (err: Option<Error>)
      modifies this
      ensures Matches(Spec.RespondClaim(old(Current()), sender, now, claimId, accept, response),
                      old(Current()), Current(), err)
    {
      hide Spec.Answer;
      if sender != terms.tenant { return Some(Unauthorized); }
      if !phase.ClaimsOpen? && !phase.ClaimsReview? { return Some(InvalidState); }
      if !claimsSubmitted { return Some(InvalidState); }
      if now >= schedule.responseDeadline { return Some(ClaimResponseClosed); }
      if now >= terms.hardEndAt { return Some(DeadlinePassed); }
      if response == ZERO_HASH { return Some(InvalidCommitment); }
      if claimId == 0 || claimId > |claims| { return Some(ClaimNotFound); }
      var c := claims[claimId - 1];
      if c.status.Accepted? || c.status.Waived? || c.status.Allocated? { return Some(ClaimAlreadyFinalized); }
      err := Answer(claimId, accept, response);
    }

    method WaiveClaim(sender: Address, now: nat, claimId: nat) returns (err: Option<Error>)
      modifies this
      ensures Matches(Spec.WaiveClaim(old(Current()), sender, now, claimId), old(Current()), Current(), err)
    {
      hide Spec.AllocateClaimToTenant, Spec.RefreshAllocationPhase, Folded, Spec.Emit;
      if sender != terms.landlord { return Some(Unauthorized); }
      if !phase.ClaimsOpen? && !phase.ClaimsReview? { return Some(InvalidState); }
      if !claimsSubmitted { return Some(InvalidState); }
      if claimsClosed && activeCase.exists_ { return Some(InvalidState); }
      if now >= terms.hardEndAt { return Some(DeadlinePassed); }
      if claimId == 0 || claimId > |claims| { return Some(ClaimNotFound); }
      var c := claims[claimId - 1];
      if c.status.Waived? || c.status.Allocated? { return Some(ClaimAlreadyFinalized); }
      var saved := Current();
      claims := claims[claimId - 1 := c.(status := ClaimStatus.Waived)];
      if claimsClosed {
        err := AllocateClaimToTenant(claimId - 1);
        if err.Some? { Rollback(saved); return; }
      } else {
        InvalidateSettlement();
      }
      RefreshAllocationPhase();
      Emit(ClaimWaived(claimId));
      err := None;
    }

    method CloseClaims(now: nat) returns (err: Option<Error>)
      modifies this
      ensures Matches(Spec.CloseClaims(old(Current()), now), old(Current()), Current(), err)
    {
      hide Spec.CloseClaimsInternal;
      if claimsClosed { return None; }
      if !phase.ClaimsOpen? { return Some(InvalidState); }
      if now < schedule.claimDeadline { return Some(DeadlineNotReached); }
      if now >= terms.hardEndAt { return Some(DeadlinePassed); }
      var saved := Current();
      err := CloseClaimsInternal();
      if err.Some? { Rollback(saved); }
    }

    /** The loop of `openClaimCase`: contest what is still pending and add up what is disputed. */
    method ContestPending() returns (disputed: nat)
      modifies this`claims
      ensures claims == Spec.ContestAll(old(claims)) && disputed == TotalFrom(claims, 0, DisputedPart)
    {
      ghost var after := Spec.ContestAll(claims);
      disputed := 0;
      var i: nat := 0;
      while i < |claims|
        invariant i <= |claims| == |after|
        invariant forall j :: 0 <= j < |claims| ==> claims[j] == if j < i then after[j] else old(claims)[j]
        invariant disputed + TotalFrom(after, i, DisputedPart) == TotalFrom(after, 0, DisputedPart)
      {
        if claims[i].status.Pending? { claims := claims[i := claims[i].(status := ClaimStatus.Disputed)]; }
        if claims[i].status.Disputed? { disputed := disputed + claims[i].amount; }
        i := i + 1;
      }
    }

    method BeginClaimCase(disputed: nat)
      modifies this`accounting, this`proposal, this`activeCase, this`caseNonce, this`phase, this`log
      ensures Current() == Spec.BeginClaimCase(old(Current()), disputed)
    {
      hide Folded, Spec.Emit, Spec.InvalidateSettlement;
      InvalidateSettlement();
      caseNonce := caseNonce + 1;
      activeCase := NO_CASE.(caseId := caseNonce, caseType := CaseType.Claims, openedAt := schedule.responseDeadline,
                             disputedAmount := disputed, evidenceDeadline := schedule.evidenceDeadline,
                             primaryDeadline := schedule.primaryDeadline, phase := CasePhase.Primary, exists_ := true);
      phase := Phase.ClaimCase;
      Emit(CaseOpened(caseNonce, CaseType.Claims, disputed));
    }

    method OpenClaimCase(now: nat) returns (err: Option<Error>)
      modifies this`claims, this`accounting, this`proposal, this`activeCase, this`caseNonce, this`phase, this`log
      ensures Matches(Spec.OpenClaimCase(old(Current()), now), old(Current()), Current(), err)
    {
      hide Spec.ContestAll, TotalFrom, Spec.BeginClaimCase;
      if !claimsClosed { return Some(ClaimsNotClosed); }
      if !phase.ClaimsReview? { return Some(InvalidState); }
      if now < schedule.responseDeadline { return Some(DeadlineNotReached); }
      if now >= terms.hardEndAt { return Some(DeadlinePassed); }
      if activeCase.exists_ && !activeCase.phase.Finalized? { return Some(CaseAlreadyOpened); }
      if accounting.unallocated == 0 { return Some(NoDisputedBalance); }
      var saved := claims;
      var disputed := ContestPending();
      if disputed == 0 { claims := saved; return Some(NoDisputedBalance); }
      BeginClaimCase(disputed);
      err := None;
    }

    /** Replace the stored decision vector, entry by entry. */
    method StoreDecisions(result: seq<DecisionInput>)
      modifies this`decisions
      ensures decisions == result
    {
      decisions := [];
      var i: nat := 0;
      while i < |result|
        invariant i <= |result| && decisions == result[..i]
      {
        decisions := decisions + [result[i]];
        i := i + 1;
      }
    }

    /** Record a primary proposal on the active case; after a revert the caller rolls back. */
    /** The time a case's deadlines are capped at. */
    method CaseLimit() returns (limit: Option<nat>)
      ensures limit == Spec.CaseLimit(Current())
    {
      if activeCase.caseType.Checkout? { return Some(terms.leaseEndAt); }
      if activeCase.caseType.Claims? { return Some(terms.hardEndAt); }
      limit := None;
    }

    method RecordPrimaryProposal(sender: Address, now: nat, reasons: Hash, digest: Digest, approved: bool)
      returns (err: Option<Error>)
      modifies this`accounting, this`proposal, this`activeCase, this`log
      ensures Reaches(Spec.RecordPrimaryProposal(old(Current()), sender, now, reasons, digest, approved),
                      Current(), err)
    {
      hide Folded, Spec.Emit, Spec.InvalidateSettlement, Spec.CaseLimit;
      InvalidateSettlement();
      var limit := CaseLimit();
      if limit.None? { return Some(WrongCaseType); }
      var deadline := now + terms.timing.challenge;
      if deadline > limit.value { deadline := limit.value; }
      if deadline <= now { return Some(DeadlinePassed); }
      activeCase := activeCase.(proposalAt := now, proposalHash := reasons, decisionHash := digest,
                                checkoutApproved := approved, challengeDeadline := deadline,
                                phase := CasePhase.Proposed);
      Emit(DecisionProposed(activeCase.caseId, sender, digest, deadline));
      err := None;
    }

    method ProposeDecision(sender: Address, now: nat, caseId: nat, result: seq<DecisionInput>, reasons: Hash)
      returns (err: Option<Error>)
      modifies this
      ensures Matches(Spec.ProposeDecision(old(Current()), sender, now, caseId, result, reasons),
                      old(Current()), Current(), err)
    {
      hide Spec.ValidDecision, Spec.RecordPrimaryProposal;
      if sender != terms.primaryResolver { return Some(Unauthorized); }
      if !activeCase.exists_ || activeCase.caseId != caseId { return Some(CaseNotFound); }
      if !activeCase.caseType.Claims? { return Some(WrongCaseType); }
      if !activeCase.phase.Primary? { return Some(WrongCasePhase); }
      if now < activeCase.evidenceDeadline { return Some(DeadlineNotReached); }
      if now >= activeCase.primaryDeadline { return Some(DeadlinePassed); }
      if reasons == ZERO_HASH { return Some(InvalidCommitment); }
      var valid := ValidateDecisionVector(result);
      if !valid { return Some(InvalidDecisionVector); }
      var saved := Current();
      StoreDecisions(result);
      err := RecordPrimaryProposal(sender, now, reasons, ClaimsDigest(caseId, reasons, result), false);
      if err.Some? { Rollback(saved); }
    }

    method ProposeCheckoutDecision(sender: Address, now: nat, caseId: nat, approved: bool, reasons: Hash)
      returns (err: Option<Error>)
      modifies this
      ensures Matches(Spec.ProposeCheckoutDecision(old(Current()), sender, now, caseId, approved, reasons),
                      old(Current()), Current(), err)
    {
      hide Spec.RecordPrimaryProposal;
      if sender != terms.primaryResolver { return Some(Unauthorized); }
      if !activeCase.exists_ || activeCase.caseId != caseId { return Some(CaseNotFound); }
      if !activeCase.caseType.Checkout? { return Some(WrongCaseType); }
      if !activeCase.phase.Primary? { return Some(WrongCasePhase); }
      if now < activeCase.evidenceDeadline { return Some(DeadlineNotReached); }
      if now >= activeCase.primaryDeadline { return Some(DeadlinePassed); }
      if reasons == ZERO_HASH { return Some(InvalidCommitment); }
      var saved := Current();
      err := RecordPrimaryProposal(sender, now, reasons, CheckoutDigest(caseId, approved, reasons), approved);
      if err.Some? { Rollback(saved); }
    }

    method Challenge(sender: Address, now: nat, caseId: nat, commitment: Hash) returns (err: Option<Error>)
      modifies this`accounting, this`proposal, this`activeCase, this`decisions, this`log
      ensures Matches(Spec.Challenge(old(Current()), sender, now, caseId, commitment), old(Current()), Current(), err)
    {
      hide Folded, Spec.Emit, Spec.InvalidateSettlement, Spec.CaseLimit;
      if !Spec.IsParty(terms, sender) { return Some(Unauthorized); }
      if commitment == ZERO_HASH { return Some(InvalidCommitment); }
      if !activeCase.exists_ || activeCase.caseId != caseId { return Some(CaseNotFound); }
      if !activeCase.phase.Proposed? { return Some(WrongCasePhase); }
      if now >= activeCase.challengeDeadline { return Some(DeadlinePassed); }
      var limit := CaseLimit();
      if limit.None? { return Some(WrongCaseType); }
      InvalidateSettlement();
      var deadline := now + terms.timing.fallbackResolver;
      if deadline > limit.value { deadline := limit.value; }
      activeCase := activeCase.(fallbackStartAt := now, fallbackDeadline := deadline, phase := CasePhase.Fallback,
                                proposalHash := ZERO_HASH, challengeCommitment := commitment, decisionHash := NoDigest);
      decisions := [];
      Emit(CaseEscalated(caseId, sender, commitment, deadline));
      err := None;
    }

    method EscalateTimeout(sender: Address, now: nat, caseId: nat) returns (err: Option<Error>)
      modifies this`accounting, this`proposal, this`activeCase, this`log
      ensures Matches(Spec.EscalateTimeout(old(Current()), sender, now, caseId), old(Current()), Current(), err)
    {
      hide Folded, Spec.Emit, Spec.InvalidateSettlement, Spec.CaseLimit;
      if !activeCase.exists_ || activeCase.caseId != caseId { return Some(CaseNotFound); }
      if !activeCase.phase.Primary? { return Some(WrongCasePhase); }
      if now < activeCase.primaryDeadline { return Some(DeadlineNotReached); }
      var limit := CaseLimit();
      if limit.None? { return Some(WrongCaseType); }
      InvalidateSettlement();
      var deadline := activeCase.primaryDeadline + terms.timing.fallbackResolver;
      if deadline > limit.value { deadline := limit.value; }
      activeCase := activeCase.(fallbackStartAt := activeCase.primaryDeadline, fallbackDeadline := deadline,
                                phase := CasePhase.Fallback);
      Emit(CaseEscalated(caseId, sender, ZERO_HASH, deadline));
      err := None;
    }

    /** Carry out the decision recorded on the active case; after a revert the caller rolls back. */
    method ApplyActiveDecision(now: nat) returns (err: Option<Error>)
      modifies this
      ensures Reaches(Spec.ApplyActiveDecision(old(Current()), now), Current(), err)
    {
      hide Spec.ApplyDecision, Spec.FinishCheckoutCase;
      if activeCase.caseType.Claims? {
        err := ApplyDecision();
        if err.Some? { return; }
        activeCase := activeCase.(phase := CasePhase.Finalized);
        phase := Phase.Allocated;
      } else if activeCase.caseType.Checkout? {
        err := FinishCheckoutCase(now, activeCase.checkoutApproved);
      } else {
        err := Some(WrongCaseType);
      }
    }

    method FinalizePrimary(now: nat, caseId: nat) returns (err: Option<Error>)
      modifies this
      ensures Matches(Spec.FinalizePrimary(old(Current()), now, caseId), old(Current()), Current(), err)
    {
      hide Spec.ApplyActiveDecision, Folded, Spec.Emit;
      if !activeCase.exists_ || activeCase.caseId != caseId { return Some(CaseNotFound); }
      if activeCase.phase.Finalized? { return None; }
      if !activeCase.phase.Proposed? { return Some(WrongCasePhase); }
      if now < activeCase.challengeDeadline { return Some(DeadlineNotReached); }
      var saved := Current();
      var digest := activeCase.decisionHash;
      err := ApplyActiveDecision(now);
      if err.Some? { Rollback(saved); return; }
      Emit(DecisionFinalized(caseId, digest));
      err := None;
    }

    method RecordAward(reasons: Hash, digest: Digest)
      modifies this`activeCase, this`phase
      ensures Current() == Spec.RecordAward(old(Current()), reasons, digest)
    {
      activeCase := activeCase.(proposalHash := reasons, decisionHash := digest, phase := CasePhase.Finalized);
      phase := Phase.Allocated;
    }

    method CarryOut(caseId: nat, result: seq<DecisionInput>, reasons: Hash) returns (err: Option<Error>)
      modifies this
      ensures Matches(Spec.CarryOut(old(Current()), caseId, result, reasons), old(Current()), Current(), err)
    {
      hide Spec.ApplyDecision, Spec.RecordAward, Folded, Spec.Emit, Spec.InvalidateSettlement;
      var saved := Current();
      StoreDecisions(result);
      var digest := ClaimsDigest(caseId, reasons, result);
      err := ApplyDecision();
      if err.Some? { Rollback(saved); return; }
      RecordAward(reasons, digest);
      InvalidateSettlement();
      Emit(DecisionFinalized(caseId, digest));
      err := None;
    }

    method ResolveFallback(sender: Address, now: nat, caseId: nat, result: seq<DecisionInput>, reasons: Hash)
      returns (err: Option<Error>)
      modifies this
      ensures Matches(Spec.ResolveFallback(old(Current()), sender, now, caseId, result, reasons),
                      old(Current()), Current(), err)
    {
      hide Spec.ValidDecision, Spec.CarryOut;
      if sender != terms.fallbackResolver { return Some(Unauthorized); }
      if !activeCase.exists_ || activeCase.caseId != caseId { return Some(CaseNotFound); }
      if !activeCase.caseType.Claims? { return Some(WrongCaseType); }
      if !activeCase.phase.Fallback? { return Some(WrongCasePhase); }
      if now < activeCase.fallbackStartAt + terms.timing.fallbackEvidence { return Some(DeadlineNotReached); }
      if now >= activeCase.fallbackDeadline { return Some(DeadlinePassed); }
      if reasons == ZERO_HASH { return Some(InvalidCommitment); }
      var valid := ValidateDecisionVector(result);
      if !valid { return Some(InvalidDecisionVector); }
      err := CarryOut(caseId, result, reasons);
    }

    method ResolveFallbackCheckout(sender: Address, now: nat, caseId: nat, approved: bool, reasons: Hash)
      returns (err: Option<Error>)
      modifies this
      ensures Matches(Spec.ResolveFallbackCheckout(old(Current()), sender, now, caseId, approved, reasons),
                      old(Current()), Current(), err)
    {
      hide Spec.ApplyActiveDecision, Folded, Spec.Emit;
      if sender != terms.fallbackResolver { return Some(Unauthorized); }
      if !activeCase.exists_ || activeCase.caseId != caseId { return Some(CaseNotFound); }
      if !activeCase.caseType.Checkout? { return Some(WrongCaseType); }
      if !activeCase.phase.Fallback? { return Some(WrongCasePhase); }
      if now < activeCase.fallbackStartAt + terms.timing.fallbackEvidence { return Some(DeadlineNotReached); }
      if now >= activeCase.fallbackDeadline { return Some(DeadlinePassed); }
      if reasons == ZERO_HASH { return Some(InvalidCommitment); }
      var saved := Current();
      var digest := CheckoutDigest(caseId, approved, reasons);
      activeCase := activeCase.(proposalHash := reasons, decisionHash := digest, checkoutApproved := approved);
      err := ApplyActiveDecision(now);
      if err.Some? { Rollback(saved); return; }
      Emit(DecisionFinalized(caseId, digest));
      err := None;
    }

    method MarkServiceTimeout(now: nat, caseId: nat) returns (err: Option<Error>)
      modifies this
      ensures Matches(Spec.MarkServiceTimeout(old(Current()), now, caseId), old(Current()), Current(), err)
    {
      hide Spec.FinishCheckoutCase, Folded, Spec.Emit, Spec.InvalidateSettlement;
      if !activeCase.exists_ || activeCase.caseId != caseId { return Some(CaseNotFound); }
      if activeCase.phase.Finalized? { return None; }
      if !activeCase.phase.Fallback? { return Some(WrongCasePhase); }
      if now < activeCase.fallbackDeadline { return Some(DeadlineNotReached); }
      if activeCase.caseType.Checkout? {
        var saved := Current();
        activeCase := activeCase.(timeoutAt := activeCase.fallbackDeadline);
        Emit(ServiceTimedOut(caseId, activeCase.timeoutAt));
        err := FinishCheckoutCase(now, false);
        if err.Some? { Rollback(saved); }
        return;
      }
      var timeoutAt := activeCase.fallbackDeadline + terms.timing.exitNotice;
      if timeoutAt > terms.hardEndAt { return Some(InvalidTerms); }
      activeCase := activeCase.(timeoutAt := timeoutAt, phase := CasePhase.ExitPending);
      phase := Phase.ExitPending;
      InvalidateSettlement();
      Emit(ServiceTimedOut(caseId, timeoutAt));
      err := None;
    }

    method FinalizeTimeout(now: nat, caseId: nat) returns (err: Option<Error>)
      modifies this`accounting, this`proposal, this`activeCase, this`phase, this`log
      ensures Matches(Spec.FinalizeTimeout(old(Current()), now, caseId), old(Current()), Current(), err)
    {
      hide Spec.AllocateCredit, Folded, Spec.Emit;
      if !activeCase.exists_ || activeCase.caseId != caseId { return Some(CaseNotFound); }
      if activeCase.phase.Finalized? { return None; }
      if !activeCase.caseType.Claims? { return Some(WrongCaseType); }
      if !activeCase.phase.ExitPending? { return Some(WrongCasePhase); }
      if now < activeCase.timeoutAt { return Some(DeadlineNotReached); }
      var amount := accounting.unallocated;
      err := AllocateCredit(terms.tenant, amount, Timeout);
      if err.Some? { return; }
      activeCase := activeCase.(phase := CasePhase.Finalized);
      phase := Phase.Allocated;
      Emit(TimeoutAllocated(caseId, amount));
      err := None;
    }

    /** The last stage of `expireEscrow`: whatever is still unallocated goes to the tenant. */
    method RestToTenant() returns (err: Option<Error>)
      modifies this
      ensures Reaches(Spec.RestToTenant(old(Current())), Current(), err)
    {
      hide Spec.AllocateCredit, Folded, Spec.Emit;
      var amount := accounting.unallocated;
      err := AllocateCredit(terms.tenant, amount, HardEnd);
      if err.Some? { return; }
      phase := Phase.Allocated;
      if activeCase.exists_ { activeCase := activeCase.(phase := CasePhase.Finalized); }
      decisions := [];
      proposal := NO_PROPOSAL;
      Emit(EscrowExpired(amount));
      err := None;
    }

    /** The settling stages of `expireEscrow`. */
    method SettleAtExpiry(now: nat) returns (err: Option<Error>)
      modifies this
      ensures Reaches(Spec.SettleAtExpiry(old(Current()), now), Current(), err)
    {
      hide Spec.StartClaims, Spec.InvalidateCheckoutCase, Spec.CloseClaimsInternal, Spec.ApplyDecision;
      hide Spec.RestToTenant;
      if !schedule.started {
        InvalidateCheckoutCase();
        err := StartClaims(terms.leaseEndAt);
        if err.Some? { return; }
      }
      err := CloseClaimsInternal();
      if err.Some? { return; }
      if activeCase.exists_ && activeCase.caseType.Claims? && activeCase.phase.Proposed?
         && now >= activeCase.challengeDeadline {
        err := ApplyDecision();
        if err.Some? { return; }
      }
      err := RestToTenant();
    }

    method ExpireEscrow(now: nat) returns (err: Option<Error>)
      modifies this
      ensures Matches(Spec.ExpireEscrow(old(Current()), now), old(Current()), Current(), err)
    {
      hide Spec.SettleAtExpiry, Folded;
      if accounting.fundedAmount == 0 { return Some(InvalidState); }
      if now < terms.hardEndAt { return Some(DeadlineNotReached); }
      if accounting.unallocated == 0 && (phase.Allocated? || phase.Closed?) { return None; }
      var saved := Current();
      err := SettleAtExpiry(now);
      if err.Some? { Rollback(saved); }
    }

    method ProposeSettlement(sender: Address, now: nat, tenantShare: nat, landlordShare: nat,
                             snapshotRevision: nat, validUntil: nat, detailsHash: Hash)
      returns (err: Option<Error>)
      modifies this`proposalNonce, this`proposal, this`log
      ensures Matches(Spec.ProposeSettlement(old(Current()), sender, now, tenantShare, landlordShare, snapshotRevision,
                                             validUntil, detailsHash),
                      old(Current()), Current(), err)
    {
      hide Folded, Spec.Emit;
      if !Spec.IsParty(terms, sender) { return Some(Unauthorized); }
      if accounting.fundedAmount == 0 || accounting.unallocated == 0 { return Some(InvalidSettlement); }
      if phase.Cancelled? || phase.Allocated? || phase.Closed? { return Some(InvalidState); }
      if now >= terms.hardEndAt { return Some(DeadlinePassed); }
      var effectiveDeadline := terms.hardEndAt;
      if activeCase.exists_ && activeCase.phase.ExitPending? && activeCase.timeoutAt < effectiveDeadline {
        effectiveDeadline := activeCase.timeoutAt;
      }
      if now >= effectiveDeadline { return Some(DeadlinePassed); }
      if proposal.proposalId != 0 && now < proposal.validUntil { return Some(ProposalAlreadyExists); }
      if snapshotRevision != accounting.revision { return Some(StaleProposal); }
      if tenantShare + landlordShare > UINT_MAX { return Some(ArithmeticPanic); }
      if tenantShare + landlordShare != accounting.unallocated { return Some(InvalidSettlement); }
      if !IsBusinessAmount(tenantShare, true) || !IsBusinessAmount(landlordShare, true) {
        return Some(InvalidSettlement);
      }
      if validUntil <= now || validUntil > effectiveDeadline { return Some(InvalidSettlement); }
      if detailsHash == ZERO_HASH { return Some(InvalidCommitment); }
      proposalNonce := proposalNonce + 1;
      proposal := SettlementProposal(proposalNonce, sender, tenantShare, landlordShare, snapshotRevision, validUntil,
                                     detailsHash);
      Emit(SettlementProposed(proposal));
      err := None;
    }

    /** Pay both shares of a confirmed settlement; after a revert the caller rolls back. */
    method PayShares(tenantShare: nat, landlordShare: nat) returns (err: Option<Error>)
      modifies this`accounting, this`proposal, this`log
      ensures Reaches(Spec.PayShares(old(Current()), tenantShare, landlordShare), Current(), err)
    {
      hide Spec.AllocateCredit;
      ghost var before := Current();
      err := AllocateCredit(terms.tenant, tenantShare, SettlementTenant);
      if err.Some? { return; }
      CreditKeepsClaims(before, terms.tenant, tenantShare, SettlementTenant);
      err := AllocateCredit(terms.landlord, landlordShare, SettlementLandlord);
    }

    method Conclude()
      modifies this`activeCase, this`phase, this`decisions
      ensures Current() == Spec.Conclude(old(Current()))
    {
      if activeCase.exists_ { activeCase := activeCase.(phase := CasePhase.Finalized); }
      phase := Phase.Allocated;
      decisions := [];
    }

    method ConfirmSettlement(sender: Address, now: nat, proposalId: nat) returns (err: Option<Error>)
      modifies this
      ensures Matches(Spec.ConfirmSettlement(old(Current()), sender, now, proposalId), old(Current()), Current(), err)
    {
      hide Spec.PayShares, Spec.Conclude, Folded, Spec.Emit;
      var p := proposal;
      if p.proposalId != proposalId || proposalId == 0 { return Some(ProposalNotFound); }
      if !Spec.IsParty(terms, sender) { return Some(Unauthorized); }
      if sender == p.proposer { return Some(Unauthorized); }
      if now >= p.validUntil { return Some(ProposalExpired); }
      if now >= terms.hardEndAt { return Some(DeadlinePassed); }
      if activeCase.exists_ && activeCase.phase.ExitPending? && now >= activeCase.timeoutAt {
        return Some(DeadlinePassed);
      }
      if p.snapshotRevision != accounting.revision || p.tenantShare + p.landlordShare != accounting.unallocated {
        return Some(StaleProposal);
      }
      var saved := Current();
      proposal := NO_PROPOSAL;
      err := PayShares(p.tenantShare, p.landlordShare);
      if err.Some? { Rollback(saved); return; }
      Conclude();
      Emit(SettlementConfirmed(proposalId, p.tenantShare, p.landlordShare));
      err := None;
    }

    /** `_withdrawTo`: the credit is cleared before the token moves, and the call reverts if it does not. */
    method WithdrawTo(sender: Address, beneficiary: Address, allowZero: bool, token: TokenAnswer)
      returns (err: Option<Error>)
      modifies this`accounting, this`phase, this`log
      ensures Matches(Spec.WithdrawTo(old(Current()), sender, beneficiary, allowZero, token),
                      old(Current()), Current(), err)
    {
      hide Folded, Spec.Emit;
      if !Spec.IsParty(terms, beneficiary) { return Some(Unauthorized); }
      var saved := accounting;
      var amount := if beneficiary == terms.tenant then accounting.tenantCredit else accounting.landlordCredit;
      if amount == 0 { return if allowZero then None else Some(NothingToWithdraw); }
      if beneficiary == terms.tenant {
        accounting := accounting.(tenantCredit := 0, tenantWithdrawn := accounting.tenantWithdrawn + amount);
      } else {
        accounting := accounting.(landlordCredit := 0, landlordWithdrawn := accounting.landlordWithdrawn + amount);
      }
      if !token.Moved? {
        accounting := saved;
        return Some(TransferFailed);
      }
      if phase.Allocated? && accounting.tenantCredit == 0 && accounting.landlordCredit == 0 { phase := Phase.Closed; }
      Emit(Withdrawn(beneficiary, sender, amount));
      err := None;
    }

    static lemma NotAParty(s: State, sender: Address, beneficiary: Address, token: TokenAnswer)
      requires !Spec.IsParty(s.terms, beneficiary)
      ensures Spec.WithdrawTo(s, sender, beneficiary, true, token) == Reverted(Unauthorized)
    {
    }

    method Withdraw(sender: Address, token: TokenAnswer) returns (err: Option<Error>)
      modifies this`accounting, this`phase, this`log
      ensures Matches(Spec.Withdraw(old(Current()), sender, token), old(Current()), Current(), err)
    {
      hide Spec.WithdrawTo;
      err := WithdrawTo(sender, sender, false, token);
    }

    method WithdrawFor(sender: Address, beneficiary: Address, token: TokenAnswer) returns (err: Option<Error>)
      modifies this`accounting, this`phase, this`log
      ensures Matches(Spec.WithdrawFor(old(Current()), sender, beneficiary, token), old(Current()), Current(), err)
    {
      hide Spec.WithdrawTo;
      if !Spec.IsParty(terms, beneficiary) {
        NotAParty(Current(), sender, beneficiary, token);
        return Some(Unauthorized);
      }
      err := WithdrawTo(sender, beneficiary, true, token);
    }
  }
}

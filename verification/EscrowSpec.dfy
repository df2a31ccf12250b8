/** What each external function of the escrow does to its state, as a function of the state before
    the call. The class in DepositEscrow.dfy is proved against these; every property of a run is
    proved about them. */
module EscrowSpec {
  import opened Options
  import opened RentBondRules
  import opened EscrowTypes
  import opened ClaimTotals
  import opened EventLog

  // ---------- deployment (contracts/src/DepositEscrow.sol:307-346) ----------

  function CheckTerms(t: Terms, factory: Address, now: nat): Check {
    if factory == ZERO_ADDRESS then Fail(InvalidAddress)
    else if t.leaseId == ZERO_HASH then Fail(InvalidTerms)
    else if t.tenant == ZERO_ADDRESS || t.landlord == ZERO_ADDRESS then Fail(InvalidAddress)
    else if t.tenant == t.landlord then Fail(InvalidTerms)
    else if t.primaryResolver == ZERO_ADDRESS then Fail(InvalidAddress)
    else if t.fallbackResolver == ZERO_ADDRESS then Fail(InvalidAddress)
    else if t.primaryResolver == t.fallbackResolver then Fail(InvalidTerms)
    else if t.tenant == t.primaryResolver || t.tenant == t.fallbackResolver
            || t.landlord == t.primaryResolver || t.landlord == t.fallbackResolver then Fail(InvalidTerms)
    else if t.token == ZERO_ADDRESS || t.registryAddress == ZERO_ADDRESS then Fail(InvalidAddress)
    else if !ValidDeposit(t.depositAmount) then Fail(InvalidTerms)
    else if t.termsHash == ZERO_HASH || t.serviceProfileId == ZERO_HASH
            || t.serviceTermsHash == ZERO_HASH || t.timingProfileId == NoDigest then Fail(InvalidTerms)
    else if !ValidTiming(t.timing) then Fail(InvalidTerms)
    else if t.timeoutPolicy != TIMEOUT_RETURN_UNAWARDED_TO_TENANT then Fail(InvalidTerms)
    else if t.timingProfileId != TimingDigest(t.timing, t.timeoutPolicy) then Fail(InvalidTerms)
    else if t.acceptDeadline <= now || t.leaseEndAt <= now then Fail(InvalidTerms)
    else if t.acceptDeadline >= t.leaseEndAt then Fail(InvalidTerms)
    else if HardEndAt(t.leaseEndAt, t.timing) > UINT_MAX then Fail(ArithmeticPanic)
    else if t.hardEndAt != HardEndAt(t.leaseEndAt, t.timing) then Fail(InvalidTerms)
    else Pass
  }

  function Fresh(t: Terms): State {
    State(t, Phase.AwaitingAcceptance, false, NO_ACCOUNTING, [], NO_CASE, NO_SCHEDULE, [],
          NO_PROPOSAL, NO_CHECKOUT, false, false, 0, 0, 0, [])
  }

  function Deploy(t: Terms, factory: Address, now: nat): Outcome {
    var check := CheckTerms(t, factory, now);
    :- check;
    Done(Fresh(t))
  }

  // ---------- internal transitions ----------

  predicate IsParty(t: Terms, a: Address) {
    a == t.tenant || a == t.landlord
  }

  function Emit(s: State, e: Event): (r: State)
    ensures Folded(r.log, s.terms.tenant) == Absorb(Folded(s.log, s.terms.tenant), e, s.terms.tenant)
  {
    FoldedSnoc(s.log, e, s.terms.tenant);
    s.(log := s.log + [e])
  }

  /** `_invalidateSettlement`: bump the revision and drop the pending proposal. */
  function InvalidateSettlement(s: State): State {
    s.(accounting := s.accounting.(revision := s.accounting.revision + 1),
       proposal := if s.proposal.proposalId != 0 then NO_PROPOSAL else s.proposal)
  }

  /** `_allocateCredit`: move unallocated funds to one party's credit. */
  function AllocateCredit(s: State, beneficiary: Address, amount: nat, source: Source): Outcome {
    var t := s.terms;
    :- Require(IsParty(t, beneficiary), Unauthorized);
    if amount == 0 then Done(s) else
    :- Require(amount <= s.accounting.unallocated, AmountMismatch);
    var a := s.accounting.(unallocated := s.accounting.unallocated - amount,
                           revision := s.accounting.revision + 1);
    var a := if beneficiary == t.tenant
             then a.(tenantCredit := a.tenantCredit + amount)
             else a.(landlordCredit := a.landlordCredit + amount);
    Done(Emit(s.(accounting := a,
                 proposal := if s.proposal.proposalId != 0 then NO_PROPOSAL else s.proposal),
              CreditAllocated(beneficiary, amount, source)))
  }

  function ToLandlord(c: Claim): Claim {
    c.(landlordAllocated := c.amount, status := ClaimStatus.Allocated)
  }

  function ToTenant(c: Claim): Claim {
    c.(tenantAllocated := c.amount, status := ClaimStatus.Allocated)
  }

  function AllocateClaimToLandlord(s: State, i: nat): Outcome
    requires i < |s.claims|
  {
    var t := s.terms;
    :- Require(!s.claims[i].status.Allocated?, ClaimAlreadyFinalized);
    var s :- AllocateCredit(s, t.landlord, s.claims[i].amount, AcceptedClaim);
    Done(s.(claims := s.claims[i := ToLandlord(s.claims[i])]))
  }

  function AllocateClaimToTenant(s: State, i: nat): Outcome
    requires i < |s.claims|
  {
    var t := s.terms;
    :- Require(!s.claims[i].status.Allocated?, ClaimAlreadyFinalized);
    var s :- AllocateCredit(s, t.tenant, s.claims[i].amount, WaivedClaim);
    Done(s.(claims := s.claims[i := ToTenant(s.claims[i])]))
  }

  predicate IsOpen(c: Claim) {
    c.status.Disputed? || c.status.Pending?
  }

  function RefreshAllocationPhase(s: State): State {
    if !s.claimsClosed then s
    else if s.accounting.unallocated == 0 || !exists i :: 0 <= i < |s.claims| && IsOpen(s.claims[i])
    then s.(phase := Phase.Allocated)
    else s
  }

  function Min(a: nat, b: nat): nat {
    if a < b then a else b
  }

  /** The settlement deadlines that follow from a start time. */
  function ScheduleFrom(t: Timing, start: nat): Schedule {
    var claimDeadline := start + t.claim;
    var responseDeadline := claimDeadline + t.response;
    var evidenceDeadline := responseDeadline + t.evidence;
    Schedule(start, claimDeadline, responseDeadline, evidenceDeadline, evidenceDeadline + t.primary, true)
  }

  function StartClaims(s: State, startedAt: nat): Outcome {
    if s.schedule.started then Done(s) else
    var t := s.terms.timing;
    var sch := ScheduleFrom(t, Min(startedAt, s.terms.leaseEndAt));
    :- Require(sch.primaryDeadline + t.challenge + t.fallbackResolver + t.exitNotice <= s.terms.hardEndAt,
               InvalidTerms);
    Done(Emit(s.(schedule := sch, phase := Phase.ClaimsOpen), ClaimsOpened(sch.claimDeadline)))
  }

  function InvalidateCheckoutCase(s: State): State {
    var s1 :=
      if s.activeCase.exists_ && s.activeCase.caseType.Checkout? && !s.activeCase.phase.Finalized?
      then Emit(s.(activeCase := s.activeCase.(phase := CasePhase.Finalized)),
                CheckoutCaseResolved(s.activeCase.caseId, false))
      else s;
    s1.(checkout := if s1.checkout.exists_ && !s1.checkout.resolved
                    then s1.checkout.(resolved := true, agreed := false) else s1.checkout,
        decisions := [])
  }

  function ResolveCheckout(s: State, approved: bool): State {
    var s := s.(activeCase := s.activeCase.(phase := CasePhase.Finalized),
                checkout := s.checkout.(resolved := true, agreed := approved),
                decisions := []);
    Emit(InvalidateSettlement(s), CheckoutCaseResolved(s.activeCase.caseId, approved))
  }

  function FinishCheckoutCase(s: State, now: nat, approved: bool): Outcome {
    var s := ResolveCheckout(s, approved);
    if approved then StartClaims(s, Min(now, s.terms.leaseEndAt))
    else if now >= s.terms.leaseEndAt then StartClaims(s, s.terms.leaseEndAt)
    else Done(s.(phase := Phase.Active))
  }

  function CaseLimit(s: State): (r: Option<nat>) {
    match s.activeCase.caseType
    case Checkout => Some(s.terms.leaseEndAt)
    case Claims => Some(s.terms.hardEndAt)
    case NoType => None
  }

  function RequireActiveCase(s: State, caseId: nat): Check {
    Require(s.activeCase.exists_ && s.activeCase.caseId == caseId, CaseNotFound)
  }

  function Contest(c: Claim): Claim {
    if c.status.Pending? then c.(status := ClaimStatus.Disputed) else c
  }

  /** One round of the loop in `_closeClaimsInternal`: accepted claims are paid to the landlord, waived
      ones to the tenant, pending ones become disputed. */
  function SettleOne(s: State, i: nat): Outcome
    requires i < |s.claims|
  {
    match s.claims[i].status
    case Accepted => AllocateClaimToLandlord(s, i)
    case Waived => AllocateClaimToTenant(s, i)
    case _ => Done(s.(claims := s.claims[i := Contest(s.claims[i])]))
  }

  /** What a claim adds to the amounts reported by ClaimsClosed. */
  function AcceptedAmount(c: Claim): nat {
    if c.status.Accepted? then c.amount else 0
  }

  function ContestedAmount(c: Claim): nat {
    if c.status.Accepted? || c.status.Waived? then 0 else c.amount
  }

  /** The loop from claim `i` on; `accepted` and `disputed` are its running totals. */
  function SettleFrom(s: State, i: nat, accepted: nat, disputed: nat, unclaimed: nat): Outcome
    decreases |s.claims| - i
  {
    if i >= |s.claims| then
      Done(Emit(s.(phase := if disputed == 0 then Phase.Allocated else Phase.ClaimsReview),
                ClaimsClosed(unclaimed, accepted, disputed)))
    else
      var c := s.claims[i];
      var s1 :- SettleOne(s, i);
      SettleFrom(s1, i + 1, accepted + AcceptedAmount(c), disputed + ContestedAmount(c), unclaimed)
  }

  function CloseClaimsInternal(s: State): Outcome {
    if s.claimsClosed then Done(s) else
    var s := InvalidateSettlement(s).(claimsClosed := true);
    :- Require(s.totalClaimAmount <= s.accounting.fundedAmount, ArithmeticPanic);
    var unclaimed := s.accounting.fundedAmount - s.totalClaimAmount;
    var s :- AllocateCredit(s, s.terms.tenant, unclaimed, Unclaimed);
    SettleFrom(s, 0, 0, 0, unclaimed)
  }

  /** The claims still disputed, in order, from claim `i` on. */
  function DisputedFrom(cs: seq<Claim>, i: nat): seq<Claim>
    decreases |cs| - i
  {
    if i >= |cs| then []
    else if cs[i].status.Disputed? then [cs[i]] + DisputedFrom(cs, i + 1)
    else DisputedFrom(cs, i + 1)
  }

  predicate Answers(d: DecisionInput, c: Claim) {
    d.claimId == c.id && d.landlordAmount <= c.amount && IsBusinessAmount(d.landlordAmount, true)
  }

  /** A decision vector answers exactly the disputed claims, one entry each, in order. */
  predicate Lockstep(result: seq<DecisionInput>, disputed: seq<Claim>) {
    && |result| == |disputed|
    && forall k :: 0 <= k < |result| ==> Answers(result[k], disputed[k])
  }

  predicate ValidDecision(cs: seq<Claim>, result: seq<DecisionInput>) {
    result != [] && Lockstep(result, DisputedFrom(cs, 0))
  }

  function Award(c: Claim, landlordAmount: nat): Claim
    requires landlordAmount <= c.amount
  {
    c.(landlordAllocated := landlordAmount, tenantAllocated := c.amount - landlordAmount,
       status := ClaimStatus.Allocated)
  }

  /** One entry of `_applyDecision`. */
  function ApplyOne(s: State, d: DecisionInput): Outcome {
    var t := s.terms;
    :- Require(0 < d.claimId <= |s.claims|, ClaimNotFound);
    var c := s.claims[d.claimId - 1];
    :- Require(c.status.Disputed?, InvalidDecisionVector);
    :- Require(d.landlordAmount <= c.amount, ArithmeticPanic);
    var s :- AllocateCredit(s, t.landlord, d.landlordAmount, DecisionLandlord);
    var s :- AllocateCredit(s, t.tenant, c.amount - d.landlordAmount, DecisionTenant);
    Done(s.(claims := s.claims[d.claimId - 1 := Award(c, d.landlordAmount)]))
  }

  /** The loop of `_applyDecision` over `ds`; `total` is its running total. */
  function ApplyFrom(s: State, ds: seq<DecisionInput>, k: nat, total: nat): Outcome
    decreases |ds| - k
  {
    if k >= |ds| then
      :- Require(total == s.activeCase.disputedAmount, InvalidDecisionVector);
      Done(s)
    else
      var s1 :- ApplyOne(s, ds[k]);
      ApplyFrom(s1, ds, k + 1, total + s.claims[ds[k].claimId - 1].amount)
  }

  function ApplyDecision(s: State): Outcome {
    ApplyFrom(s, s.decisions, 0, 0)
  }

  function ApplyActiveDecision(s: State, now: nat): Outcome {
    match s.activeCase.caseType
    case Claims =>
      var s :- ApplyDecision(s);
      Done(s.(activeCase := s.activeCase.(phase := CasePhase.Finalized), phase := Phase.Allocated))
    case Checkout => FinishCheckoutCase(s, now, s.activeCase.checkoutApproved)
    case NoType => Reverted(WrongCaseType)
  }

  function RecordPrimaryProposal(s: State, sender: Address, now: nat, reasons: Hash, digest: Digest,
                                 approved: bool): Outcome {
    var s := InvalidateSettlement(s);
    var limit := CaseLimit(s);
    :- Require(limit.Some?, WrongCaseType);
    var deadline := Min(now + s.terms.timing.challenge, limit.value);
    :- Require(now < deadline, DeadlinePassed);
    Done(Emit(s.(activeCase := s.activeCase.(
                   proposalAt := now, proposalHash := reasons, decisionHash := digest,
                   checkoutApproved := approved, challengeDeadline := deadline,
                   phase := CasePhase.Proposed)),
              DecisionProposed(s.activeCase.caseId, sender, digest, deadline)))
  }

  // ---------- external functions ----------

  function AcceptTerms(s: State, sender: Address, now: nat, termsHash: Hash): Outcome {
    var t := s.terms;
    :- Require(sender == t.tenant, Unauthorized);
    :- Require(s.phase.AwaitingAcceptance?, InvalidState);
    :- Require(now < t.acceptDeadline, DeadlinePassed);
    :- Require(termsHash == t.termsHash, HashMismatch);
    Done(Emit(s.(tenantAccepted := true, phase := Phase.AwaitingFunding),
              TermsAccepted(t.tenant, termsHash)))
  }

  function CancelUnfunded(s: State, sender: Address): Outcome {
    var t := s.terms;
    :- Require(IsParty(t, sender), Unauthorized);
    :- Require(s.phase.AwaitingAcceptance? || s.phase.AwaitingFunding?, InvalidState);
    Done(Emit(s.(phase := Phase.Cancelled), LeaseCancelled(sender, false)))
  }

  function ExpireUnfunded(s: State, sender: Address, now: nat): Outcome {
    var t := s.terms;
    :- Require(s.phase.AwaitingAcceptance? || s.phase.AwaitingFunding?, InvalidState);
    :- Require(now >= t.acceptDeadline, DeadlineNotReached);
    Done(Emit(s.(phase := Phase.Cancelled), LeaseCancelled(sender, true)))
  }

  function RegistryCheck(r: RegistryAnswer): Check {
    match r
    case Eligible => Pass
    case NotAccepted => Fail(ServiceNotAccepted)
    case ClosedForFunding => Fail(ServiceRevoked)
    case OutOfScope => Fail(OutsideServiceScope)
    case NotEligible => Fail(ServiceNotEligible)
  }

  function TokenCheck(t: TokenAnswer): Check {
    match t
    case Moved => Pass
    case CallFailed => Fail(TransferFailed)
    case WrongDelta => Fail(BalanceDeltaMismatch)
  }

  function Fund(s: State, sender: Address, now: nat, amount: nat,
                registry: RegistryAnswer, token: TokenAnswer): Outcome {
    var t := s.terms;
    :- Require(sender == t.tenant, Unauthorized);
    :- Require(!s.phase.Active? && s.accounting.fundedAmount == 0, AlreadyFunded);
    :- Require(s.phase.AwaitingFunding? && s.tenantAccepted, InvalidState);
    :- Require(now < t.acceptDeadline, DeadlinePassed);
    :- Require(amount == t.depositAmount, AmountMismatch);
    :- RegistryCheck(registry);
    :- TokenCheck(token);
    Done(Emit(s.(accounting := s.accounting.(fundedAmount := amount, unallocated := amount),
                 phase := Phase.Active),
              Funded(t.tenant, amount)))
  }

  function RequestCheckout(s: State, sender: Address, now: nat, evidenceHash: Hash): Outcome {
    var t := s.terms;
    :- Require(IsParty(t, sender), Unauthorized);
    :- Require(s.accounting.fundedAmount != 0 && s.phase.Active?, InvalidState);
    :- Require(now < t.leaseEndAt, DeadlinePassed);
    :- Require(evidenceHash != ZERO_HASH, InvalidTerms);
    :- Require(s.checkout.exists_ ==> s.checkout.resolved, InvalidState);
    :- Require(s.checkout.exists_ ==> now >= s.checkout.requestedAt + CHECKOUT_RETRY_DELAY
                                      && evidenceHash != s.checkout.evidenceHash, InvalidTerms);
    var deadline := Min(now + t.timing.checkoutResponse, t.leaseEndAt);
    Done(Emit(InvalidateSettlement(s).(
                checkout := CheckoutRequest(sender, evidenceHash, now, deadline, true, false, false, false, false),
                phase := Phase.CheckoutRequested),
              CheckoutWasRequested(sender, evidenceHash, deadline)))
  }

  function RespondCheckout(s: State, sender: Address, now: nat, agree: bool, evidenceHash: Hash): Outcome {
    var t := s.terms;
    :- Require(IsParty(t, sender), Unauthorized);
    :- Require(s.checkout.exists_ && sender != s.checkout.requester, InvalidState);
    :- Require(s.phase.CheckoutRequested?, InvalidState);
    :- Require(!s.checkout.responded, InvalidState);
    :- Require(now < s.checkout.responseDeadline, DeadlinePassed);
    :- Require(evidenceHash == s.checkout.evidenceHash, HashMismatch);
    var s := InvalidateSettlement(s.(checkout := s.checkout.(responded := true, agreed := agree)));
    var s :- if agree then StartClaims(s.(checkout := s.checkout.(resolved := true)), now) else Done(s);
    Done(Emit(s, CheckoutResponded(sender, agree, evidenceHash)))
  }

  function BeginCheckoutCase(s: State, now: nat, evidence: nat, primary: nat): State {
    var id := s.caseNonce + 1;
    var c := NO_CASE.(caseId := id, caseType := CaseType.Checkout, openedAt := now,
                      evidenceDeadline := evidence, primaryDeadline := primary,
                      phase := CasePhase.Primary, exists_ := true);
    var s := InvalidateSettlement(s).(
      caseNonce := id, checkout := s.checkout.(caseOpened := true), activeCase := c,
      phase := Phase.CheckoutCase);
    Emit(Emit(s, CheckoutCaseOpened(s.checkout.requester)), CaseOpened(id, CaseType.Checkout, 0))
  }

  function OpenCheckoutCase(s: State, now: nat): Outcome {
    var t := s.terms;
    :- Require(s.checkout.exists_ && !s.checkout.resolved && !s.checkout.caseOpened
               && s.phase.CheckoutRequested?, InvalidState);
    :- Require(s.checkout.responded || now >= s.checkout.responseDeadline, DeadlineNotReached);
    :- Require(now < t.leaseEndAt, DeadlinePassed);
    var evidence := Min(now + t.timing.evidence, t.leaseEndAt);
    var primary := Min(evidence + t.timing.primary, t.leaseEndAt);
    Done(BeginCheckoutCase(s, now, evidence, primary))
  }

  function StartScheduledSettlement(s: State, now: nat): Outcome {
    if s.schedule.started then Done(s) else
    :- Require(s.phase.Active? || s.phase.CheckoutRequested? || s.phase.CheckoutCase?, InvalidState);
    :- Require(now >= s.terms.leaseEndAt, DeadlineNotReached);
    :- Require(now < s.terms.hardEndAt, DeadlinePassed);
    StartClaims(InvalidateCheckoutCase(InvalidateSettlement(s)), s.terms.leaseEndAt)
  }

  /** The checks of the loop in `submitClaims` from input `i` on, with its running total. */
  function CheckInputs(inputs: seq<ClaimInput>, i: nat, total: nat, funded: nat): Check
    decreases |inputs| - i
  {
    if i >= |inputs| then Pass
    else if !IsBusinessAmount(inputs[i].amount, false) || inputs[i].commitment == ZERO_HASH
    then Fail(InvalidCommitment)
    else if total + inputs[i].amount > UINT_MAX then Fail(ArithmeticPanic)
    else if total + inputs[i].amount > funded then Fail(ClaimsExceedDeposit)
    else CheckInputs(inputs, i + 1, total + inputs[i].amount, funded)
  }

  /** The sum of the inputs from input `i` on. */
  function InputTotal(inputs: seq<ClaimInput>, i: nat): nat
    decreases |inputs| - i
  {
    if i >= |inputs| then 0 else inputs[i].amount + InputTotal(inputs, i + 1)
  }

  function NewClaims(inputs: seq<ClaimInput>): seq<Claim> {
    seq(|inputs|, i requires 0 <= i < |inputs| =>
      Claim(i + 1, inputs[i].amount, inputs[i].commitment, ZERO_HASH, ClaimStatus.Pending, 0, 0))
  }

  function SubmitClaims(s: State, sender: Address, now: nat, inputs: seq<ClaimInput>): Outcome {
    var t := s.terms;
    :- Require(sender == t.landlord, Unauthorized);
    :- Require(s.phase.ClaimsOpen?, InvalidState);
    :- Require(!s.claimsSubmitted, ClaimsAlreadySubmitted);
    :- Require(now < s.schedule.claimDeadline, DeadlinePassed);
    :- Require(now < t.hardEndAt, DeadlinePassed);
    :- Require(0 < |inputs| <= 10, TooManyClaims);
    :- CheckInputs(inputs, 0, 0, s.accounting.fundedAmount);
    var total := InputTotal(inputs, 0);
    Done(Emit(InvalidateSettlement(s.(claims := s.claims + NewClaims(inputs), claimsSubmitted := true,
                                      totalClaimAmount := total)),
              ClaimsSubmitted(t.landlord, |inputs|, total)))
  }

  /** The answer, once it is allowed: a mark, or after closing a payment. */
  function Answer(s: State, claimId: nat, accept: bool, response: Hash): Outcome
    requires 0 < claimId <= |s.claims|
  {
    var c := s.claims[claimId - 1].(status := if accept then ClaimStatus.Accepted else ClaimStatus.Disputed,
                                    responseCommitment := response);
    var s := s.(claims := s.claims[claimId - 1 := c]);
    var o := if s.claimsClosed && accept then AllocateClaimToLandlord(s, claimId - 1)
             else Done(InvalidateSettlement(s));
    var s :- o;
    Done(Emit(RefreshAllocationPhase(s), ClaimResponded(claimId, accept, response)))
  }

  function RespondClaim(s: State, sender: Address, now: nat, claimId: nat, accept: bool,
                        response: Hash): Outcome {
    var t := s.terms;
    :- Require(sender == t.tenant, Unauthorized);
    :- Require(s.phase.ClaimsOpen? || s.phase.ClaimsReview?, InvalidState);
    :- Require(s.claimsSubmitted, InvalidState);
    :- Require(now < s.schedule.responseDeadline, ClaimResponseClosed);
    :- Require(now < t.hardEndAt, DeadlinePassed);
    :- Require(response != ZERO_HASH, InvalidCommitment);
    :- Require(0 < claimId <= |s.claims|, ClaimNotFound);
    :- Require(IsOpen(s.claims[claimId - 1]), ClaimAlreadyFinalized);
    Answer(s, claimId, accept, response)
  }

  function WaiveClaim(s: State, sender: Address, now: nat, claimId: nat): Outcome {
    var t := s.terms;
    :- Require(sender == t.landlord, Unauthorized);
    :- Require(s.phase.ClaimsOpen? || s.phase.ClaimsReview?, InvalidState);
    :- Require(s.claimsSubmitted, InvalidState);
    :- Require(!(s.claimsClosed && s.activeCase.exists_), InvalidState);
    :- Require(now < t.hardEndAt, DeadlinePassed);
    :- Require(0 < claimId <= |s.claims|, ClaimNotFound);
    var c := s.claims[claimId - 1];
    :- Require(!c.status.Waived? && !c.status.Allocated?, ClaimAlreadyFinalized);
    var s := s.(claims := s.claims[claimId - 1 := c.(status := ClaimStatus.Waived)]);
    var s :- if s.claimsClosed then AllocateClaimToTenant(s, claimId - 1) else Done(InvalidateSettlement(s));
    Done(Emit(RefreshAllocationPhase(s), ClaimWaived(claimId)))
  }

  function CloseClaims(s: State, now: nat): Outcome {
    if s.claimsClosed then Done(s) else
    :- Require(s.phase.ClaimsOpen?, InvalidState);
    :- Require(now >= s.schedule.claimDeadline, DeadlineNotReached);
    :- Require(now < s.terms.hardEndAt, DeadlinePassed);
    CloseClaimsInternal(s)
  }

  /** Every claim still pending becomes disputed. */
  function ContestAll(cs: seq<Claim>): seq<Claim> {
    seq(|cs|, i requires 0 <= i < |cs| => Contest(cs[i]))
  }

  function BeginClaimCase(s: State, disputed: nat): State {
    var id := s.caseNonce + 1;
    var c := NO_CASE.(caseId := id, caseType := CaseType.Claims, openedAt := s.schedule.responseDeadline,
                      disputedAmount := disputed, evidenceDeadline := s.schedule.evidenceDeadline,
                      primaryDeadline := s.schedule.primaryDeadline,
                      phase := CasePhase.Primary, exists_ := true);
    Emit(InvalidateSettlement(s).(caseNonce := id, activeCase := c, phase := Phase.ClaimCase),
         CaseOpened(id, CaseType.Claims, disputed))
  }

  function OpenClaimCase(s: State, now: nat): Outcome {
    var t := s.terms;
    :- Require(s.claimsClosed, ClaimsNotClosed);
    :- Require(s.phase.ClaimsReview?, InvalidState);
    :- Require(now >= s.schedule.responseDeadline, DeadlineNotReached);
    :- Require(now < t.hardEndAt, DeadlinePassed);
    :- Require(s.activeCase.exists_ ==> s.activeCase.phase.Finalized?, CaseAlreadyOpened);
    :- Require(s.accounting.unallocated != 0, NoDisputedBalance);
    var cs := ContestAll(s.claims);
    var disputed := TotalFrom(cs, 0, DisputedPart);
    :- Require(disputed != 0, NoDisputedBalance);
    Done(BeginClaimCase(s.(claims := cs), disputed))
  }

  function ProposeDecision(s: State, sender: Address, now: nat, caseId: nat,
                           result: seq<DecisionInput>, reasons: Hash): Outcome {
    var t := s.terms;
    :- Require(sender == t.primaryResolver, Unauthorized);
    :- RequireActiveCase(s, caseId);
    :- Require(s.activeCase.caseType.Claims?, WrongCaseType);
    :- Require(s.activeCase.phase.Primary?, WrongCasePhase);
    :- Require(now >= s.activeCase.evidenceDeadline, DeadlineNotReached);
    :- Require(now < s.activeCase.primaryDeadline, DeadlinePassed);
    :- Require(reasons != ZERO_HASH, InvalidCommitment);
    :- Require(ValidDecision(s.claims, result), InvalidDecisionVector);
    RecordPrimaryProposal(s.(decisions := result), sender, now, reasons,
                          ClaimsDigest(caseId, reasons, result), false)
  }

  function ProposeCheckoutDecision(s: State, sender: Address, now: nat, caseId: nat, approved: bool,
                                   reasons: Hash): Outcome {
    var t := s.terms;
    :- Require(sender == t.primaryResolver, Unauthorized);
    :- RequireActiveCase(s, caseId);
    :- Require(s.activeCase.caseType.Checkout?, WrongCaseType);
    :- Require(s.activeCase.phase.Primary?, WrongCasePhase);
    :- Require(now >= s.activeCase.evidenceDeadline, DeadlineNotReached);
    :- Require(now < s.activeCase.primaryDeadline, DeadlinePassed);
    :- Require(reasons != ZERO_HASH, InvalidCommitment);
    RecordPrimaryProposal(s, sender, now, reasons, CheckoutDigest(caseId, approved, reasons), approved)
  }

  function Challenge(s: State, sender: Address, now: nat, caseId: nat, commitment: Hash): Outcome {
    var t := s.terms;
    :- Require(IsParty(t, sender), Unauthorized);
    :- Require(commitment != ZERO_HASH, InvalidCommitment);
    :- RequireActiveCase(s, caseId);
    :- Require(s.activeCase.phase.Proposed?, WrongCasePhase);
    :- Require(now < s.activeCase.challengeDeadline, DeadlinePassed);
    var limit := CaseLimit(s);
    :- Require(limit.Some?, WrongCaseType);
    var deadline := Min(now + t.timing.fallbackResolver, limit.value);
    Done(Emit(InvalidateSettlement(s).(
                activeCase := s.activeCase.(
                  fallbackStartAt := now, fallbackDeadline := deadline, phase := CasePhase.Fallback,
                  proposalHash := ZERO_HASH, challengeCommitment := commitment, decisionHash := NoDigest),
                decisions := []),
              CaseEscalated(caseId, sender, commitment, deadline)))
  }

  function EscalateTimeout(s: State, sender: Address, now: nat, caseId: nat): Outcome {
    var t := s.terms;
    :- RequireActiveCase(s, caseId);
    :- Require(s.activeCase.phase.Primary?, WrongCasePhase);
    :- Require(now >= s.activeCase.primaryDeadline, DeadlineNotReached);
    var limit := CaseLimit(s);
    :- Require(limit.Some?, WrongCaseType);
    var deadline := Min(s.activeCase.primaryDeadline + t.timing.fallbackResolver, limit.value);
    Done(Emit(InvalidateSettlement(s).(
                activeCase := s.activeCase.(
                  fallbackStartAt := s.activeCase.primaryDeadline, fallbackDeadline := deadline,
                  phase := CasePhase.Fallback)),
              CaseEscalated(caseId, sender, ZERO_HASH, deadline)))
  }

  function FinalizePrimary(s: State, now: nat, caseId: nat): Outcome {
    var c := s.activeCase;
    :- RequireActiveCase(s, caseId);
    if c.phase.Finalized? then Done(s) else
    :- Require(c.phase.Proposed?, WrongCasePhase);
    :- Require(now >= c.challengeDeadline, DeadlineNotReached);
    var digest := c.decisionHash;
    var s :- ApplyActiveDecision(s, now);
    Done(Emit(s, DecisionFinalized(caseId, digest)))
  }

  function RecordAward(s: State, reasons: Hash, digest: Digest): State {
    s.(activeCase := s.activeCase.(proposalHash := reasons, decisionHash := digest, phase := CasePhase.Finalized),
       phase := Phase.Allocated)
  }

  /** The fallback resolver's vector, once it is valid: stored and applied in one go. */
  function CarryOut(s: State, caseId: nat, result: seq<DecisionInput>, reasons: Hash): Outcome {
    var digest := ClaimsDigest(caseId, reasons, result);
    var s :- ApplyDecision(s.(decisions := result));
    Done(Emit(InvalidateSettlement(RecordAward(s, reasons, digest)), DecisionFinalized(caseId, digest)))
  }

  function ResolveFallback(s: State, sender: Address, now: nat, caseId: nat,
                           result: seq<DecisionInput>, reasons: Hash): Outcome {
    var t := s.terms;
    :- Require(sender == t.fallbackResolver, Unauthorized);
    :- RequireActiveCase(s, caseId);
    :- Require(s.activeCase.caseType.Claims?, WrongCaseType);
    :- Require(s.activeCase.phase.Fallback?, WrongCasePhase);
    :- Require(now >= s.activeCase.fallbackStartAt + t.timing.fallbackEvidence, DeadlineNotReached);
    :- Require(now < s.activeCase.fallbackDeadline, DeadlinePassed);
    :- Require(reasons != ZERO_HASH, InvalidCommitment);
    :- Require(ValidDecision(s.claims, result), InvalidDecisionVector);
    CarryOut(s, caseId, result, reasons)
  }

  function ResolveFallbackCheckout(s: State, sender: Address, now: nat, caseId: nat, approved: bool,
                                   reasons: Hash): Outcome {
    var t := s.terms;
    :- Require(sender == t.fallbackResolver, Unauthorized);
    :- RequireActiveCase(s, caseId);
    :- Require(s.activeCase.caseType.Checkout?, WrongCaseType);
    :- Require(s.activeCase.phase.Fallback?, WrongCasePhase);
    :- Require(now >= s.activeCase.fallbackStartAt + t.timing.fallbackEvidence, DeadlineNotReached);
    :- Require(now < s.activeCase.fallbackDeadline, DeadlinePassed);
    :- Require(reasons != ZERO_HASH, InvalidCommitment);
    var digest := CheckoutDigest(caseId, approved, reasons);
    var s :- ApplyActiveDecision(
               s.(activeCase := s.activeCase.(proposalHash := reasons, decisionHash := digest,
                                              checkoutApproved := approved)), now);
    Done(Emit(s, DecisionFinalized(caseId, digest)))
  }

  function MarkServiceTimeout(s: State, now: nat, caseId: nat): Outcome {
    var t := s.terms;
    :- RequireActiveCase(s, caseId);
    if s.activeCase.phase.Finalized? then Done(s) else
    :- Require(s.activeCase.phase.Fallback?, WrongCasePhase);
    :- Require(now >= s.activeCase.fallbackDeadline, DeadlineNotReached);
    if s.activeCase.caseType.Checkout? then
      var at := s.activeCase.fallbackDeadline;
      FinishCheckoutCase(Emit(s.(activeCase := s.activeCase.(timeoutAt := at)), ServiceTimedOut(caseId, at)),
                         now, false)
    else
      var at := s.activeCase.fallbackDeadline + t.timing.exitNotice;
      :- Require(at <= t.hardEndAt, InvalidTerms);
      Done(Emit(InvalidateSettlement(
                  s.(activeCase := s.activeCase.(timeoutAt := at, phase := CasePhase.ExitPending),
                     phase := Phase.ExitPending)),
                ServiceTimedOut(caseId, at)))
  }

  function FinalizeTimeout(s: State, now: nat, caseId: nat): Outcome {
    var t := s.terms;
    :- RequireActiveCase(s, caseId);
    if s.activeCase.phase.Finalized? then Done(s) else
    :- Require(s.activeCase.caseType.Claims?, WrongCaseType);
    :- Require(s.activeCase.phase.ExitPending?, WrongCasePhase);
    :- Require(now >= s.activeCase.timeoutAt, DeadlineNotReached);
    var amount := s.accounting.unallocated;
    var s :- AllocateCredit(s, t.tenant, amount, Timeout);
    Done(Emit(s.(activeCase := s.activeCase.(phase := CasePhase.Finalized), phase := Phase.Allocated),
              TimeoutAllocated(caseId, amount)))
  }

  /** A primary decision whose challenge window is over but which nobody finalized. */
  predicate UnchallengedProposal(s: State, now: nat) {
    && s.activeCase.exists_ && s.activeCase.caseType.Claims? && s.activeCase.phase.Proposed?
    && now >= s.activeCase.challengeDeadline
  }

  /** The three settling stages of `expireEscrow`, before the rest goes to the tenant. */
  function OpenForExpiry(s: State): Outcome {
    if s.schedule.started then Done(s) else StartClaims(InvalidateCheckoutCase(s), s.terms.leaseEndAt)
  }

  function AwardUnchallenged(s: State, now: nat): Outcome {
    if UnchallengedProposal(s, now) then ApplyDecision(s) else Done(s)
  }

  function RestToTenant(s: State): Outcome {
    var amount := s.accounting.unallocated;
    var s :- AllocateCredit(s, s.terms.tenant, amount, HardEnd);
    Done(Emit(s.(phase := Phase.Allocated,
                 activeCase := if s.activeCase.exists_ then s.activeCase.(phase := CasePhase.Finalized)
                               else s.activeCase,
                 decisions := [], proposal := NO_PROPOSAL),
              EscrowExpired(amount)))
  }

  function SettleAtExpiry(s: State, now: nat): Outcome {
    var o := OpenForExpiry(s);
    var s :- o;
    var s :- CloseClaimsInternal(s);
    var s :- AwardUnchallenged(s, now);
    RestToTenant(s)
  }

  function ExpireEscrow(s: State, now: nat): Outcome {
    var t := s.terms;
    :- Require(s.accounting.fundedAmount != 0, InvalidState);
    :- Require(now >= t.hardEndAt, DeadlineNotReached);
    if s.accounting.unallocated == 0 && (s.phase.Allocated? || s.phase.Closed?) then Done(s)
    else SettleAtExpiry(s, now)
  }

  /** Until when a settlement may be agreed. */
  function SettlementDeadline(s: State): nat {
    if s.activeCase.exists_ && s.activeCase.phase.ExitPending? && s.activeCase.timeoutAt < s.terms.hardEndAt
    then s.activeCase.timeoutAt else s.terms.hardEndAt
  }

  function ProposeSettlement(s: State, sender: Address, now: nat, tenantShare: nat, landlordShare: nat,
                             snapshotRevision: nat, validUntil: nat, detailsHash: Hash): Outcome {
    var t := s.terms;
    :- Require(IsParty(t, sender), Unauthorized);
    :- Require(s.accounting.fundedAmount != 0 && s.accounting.unallocated != 0, InvalidSettlement);
    :- Require(!s.phase.Cancelled? && !s.phase.Allocated? && !s.phase.Closed?, InvalidState);
    :- Require(now < t.hardEndAt, DeadlinePassed);
    :- Require(now < SettlementDeadline(s), DeadlinePassed);
    :- Require(s.proposal.proposalId == 0 || now >= s.proposal.validUntil, ProposalAlreadyExists);
    :- Require(snapshotRevision == s.accounting.revision, StaleProposal);
    :- Require(tenantShare + landlordShare <= UINT_MAX, ArithmeticPanic);
    :- Require(tenantShare + landlordShare == s.accounting.unallocated, InvalidSettlement);
    :- Require(IsBusinessAmount(tenantShare, true) && IsBusinessAmount(landlordShare, true), InvalidSettlement);
    :- Require(now < validUntil <= SettlementDeadline(s), InvalidSettlement);
    :- Require(detailsHash != ZERO_HASH, InvalidCommitment);
    var p := SettlementProposal(s.proposalNonce + 1, sender, tenantShare, landlordShare,
                                snapshotRevision, validUntil, detailsHash);
    Done(Emit(s.(proposalNonce := p.proposalId, proposal := p), SettlementProposed(p)))
  }

  function PayShares(s: State, tenantShare: nat, landlordShare: nat): Outcome {
    var s :- AllocateCredit(s, s.terms.tenant, tenantShare, SettlementTenant);
    AllocateCredit(s, s.terms.landlord, landlordShare, SettlementLandlord)
  }

  function Conclude(s: State): State {
    s.(activeCase := if s.activeCase.exists_ then s.activeCase.(phase := CasePhase.Finalized) else s.activeCase,
       phase := Phase.Allocated, decisions := [])
  }

  function ConfirmSettlement(s: State, sender: Address, now: nat, proposalId: nat): Outcome {
    var p := s.proposal;
    :- Require(p.proposalId == proposalId && proposalId != 0, ProposalNotFound);
    :- Require(IsParty(s.terms, sender), Unauthorized);
    :- Require(sender != p.proposer, Unauthorized);
    :- Require(now < p.validUntil, ProposalExpired);
    :- Require(now < s.terms.hardEndAt, DeadlinePassed);
    :- Require(!(s.activeCase.exists_ && s.activeCase.phase.ExitPending? && now >= s.activeCase.timeoutAt),
               DeadlinePassed);
    :- Require(p.snapshotRevision == s.accounting.revision
               && p.tenantShare + p.landlordShare == s.accounting.unallocated, StaleProposal);
    var s :- PayShares(s.(proposal := NO_PROPOSAL), p.tenantShare, p.landlordShare);
    Done(Emit(Conclude(s), SettlementConfirmed(proposalId, p.tenantShare, p.landlordShare)))
  }

  function WithdrawTo(s: State, sender: Address, beneficiary: Address, allowZero: bool,
                      token: TokenAnswer): Outcome {
    var t := s.terms;
    :- Require(IsParty(t, beneficiary), Unauthorized);
    var a := s.accounting;
    var isTenant := beneficiary == t.tenant;
    var amount := if isTenant then a.tenantCredit else a.landlordCredit;
    if amount == 0 then (if allowZero then Done(s) else Reverted(NothingToWithdraw)) else
    :- Require(token.Moved?, TransferFailed);
    var a := if isTenant
             then a.(tenantCredit := 0, tenantWithdrawn := a.tenantWithdrawn + amount)
             else a.(landlordCredit := 0, landlordWithdrawn := a.landlordWithdrawn + amount);
    Done(Emit(s.(accounting := a,
                 phase := if s.phase.Allocated? && a.tenantCredit == 0 && a.landlordCredit == 0
                          then Phase.Closed else s.phase),
              Withdrawn(beneficiary, sender, amount)))
  }

  function Withdraw(s: State, sender: Address, token: TokenAnswer): Outcome {
    WithdrawTo(s, sender, sender, false, token)
  }

  function WithdrawFor(s: State, sender: Address, beneficiary: Address, token: TokenAnswer): Outcome {
    WithdrawTo(s, sender, beneficiary, true, token)
  }

  // ---------- calls and runs ----------

  datatype Call =
    | CallAcceptTerms(termsHash: Hash)
    | CallCancelUnfunded
    | CallExpireUnfunded
    | CallFund(amount: nat, registry: RegistryAnswer, token: TokenAnswer)
    | CallRequestCheckout(evidenceHash: Hash)
    | CallRespondCheckout(agree: bool, evidenceHash: Hash)
    | CallOpenCheckoutCase
    | CallStartScheduledSettlement
    | CallSubmitClaims(inputs: seq<ClaimInput>)
    | CallRespondClaim(claimId: nat, accept: bool, response: Hash)
    | CallWaiveClaim(claimId: nat)
    | CallCloseClaims
    | CallOpenClaimCase
    | CallProposeDecision(caseId: nat, result: seq<DecisionInput>, reasons: Hash)
    | CallProposeCheckoutDecision(caseId: nat, approved: bool, reasons: Hash)
    | CallChallenge(caseId: nat, commitment: Hash)
    | CallEscalateTimeout(caseId: nat)
    | CallFinalizePrimary(caseId: nat)
    | CallResolveFallback(caseId: nat, result: seq<DecisionInput>, reasons: Hash)
    | CallResolveFallbackCheckout(caseId: nat, approved: bool, reasons: Hash)
    | CallMarkServiceTimeout(caseId: nat)
    | CallFinalizeTimeout(caseId: nat)
    | CallExpireEscrow
    | CallProposeSettlement(tenantShare: nat, landlordShare: nat, snapshotRevision: nat, validUntil: nat,
                            detailsHash: Hash)
    | CallConfirmSettlement(proposalId: nat)
    | CallWithdraw(token: TokenAnswer)
    | CallWithdrawFor(beneficiary: Address, token: TokenAnswer)

  function Exec(s: State, sender: Address, now: nat, call: Call): Outcome {
    match call
    case CallAcceptTerms(h) => AcceptTerms(s, sender, now, h)
    case CallCancelUnfunded => CancelUnfunded(s, sender)
    case CallExpireUnfunded => ExpireUnfunded(s, sender, now)
    case CallFund(amount, registry, token) => Fund(s, sender, now, amount, registry, token)
    case CallRequestCheckout(h) => RequestCheckout(s, sender, now, h)
    case CallRespondCheckout(agree, h) => RespondCheckout(s, sender, now, agree, h)
    case CallOpenCheckoutCase => OpenCheckoutCase(s, now)
    case CallStartScheduledSettlement => StartScheduledSettlement(s, now)
    case CallSubmitClaims(inputs) => SubmitClaims(s, sender, now, inputs)
    case CallRespondClaim(id, accept, h) => RespondClaim(s, sender, now, id, accept, h)
    case CallWaiveClaim(id) => WaiveClaim(s, sender, now, id)
    case CallCloseClaims => CloseClaims(s, now)
    case CallOpenClaimCase => OpenClaimCase(s, now)
    case CallProposeDecision(id, result, h) => ProposeDecision(s, sender, now, id, result, h)
    case CallProposeCheckoutDecision(id, approved, h) => ProposeCheckoutDecision(s, sender, now, id, approved, h)
    case CallChallenge(id, h) => Challenge(s, sender, now, id, h)
    case CallEscalateTimeout(id) => EscalateTimeout(s, sender, now, id)
    case CallFinalizePrimary(id) => FinalizePrimary(s, now, id)
    case CallResolveFallback(id, result, h) => ResolveFallback(s, sender, now, id, result, h)
    case CallResolveFallbackCheckout(id, approved, h) => ResolveFallbackCheckout(s, sender, now, id, approved, h)
    case CallMarkServiceTimeout(id) => MarkServiceTimeout(s, now, id)
    case CallFinalizeTimeout(id) => FinalizeTimeout(s, now, id)
    case CallExpireEscrow => ExpireEscrow(s, now)
    case CallProposeSettlement(t, l, rev, until, h) => ProposeSettlement(s, sender, now, t, l, rev, until, h)
    case CallConfirmSettlement(id) => ConfirmSettlement(s, sender, now, id)
    case CallWithdraw(token) => Withdraw(s, sender, token)
    case CallWithdrawFor(b, token) => WithdrawFor(s, sender, b, token)
  }

  /** One transaction: who calls what, when. */
  datatype Tx = Tx(sender: Address, now: nat, call: Call)

  /** Chain time never goes backwards along a run. */
  predicate Chronological(txs: seq<Tx>) {
    forall i, j :: 0 <= i <= j < |txs| ==> txs[i].now <= txs[j].now
  }

  function Step(s: State, tx: Tx): State {
    After(Exec(s, tx.sender, tx.now, tx.call), s)
  }

  /** The state after a sequence of transactions; a reverted one changes nothing. */
  function Run(s: State, txs: seq<Tx>): State
    decreases |txs|
  {
    if txs == [] then s else Run(Step(s, txs[0]), txs[1..])
  }
}

/** The escrow together with the token it holds: whatever anyone sends to either contract, the escrow's
    balance covers what it owes (contracts/src/DepositEscrow.sol:383-432, 1305-1334). */
module Solvency {
  import opened RentBondRules
  import opened EscrowTypes
  import opened EscrowSpec
  import opened EscrowInvariant
  import opened EscrowPreservation
  import opened EscrowAudit
  import opened ClaimTotals
  import opened EventLog
  import opened TokenLedger

  /** One escrow, the ledger of its token, and the escrow's own address. */
  datatype World = World(escrow: State, ledger: Ledger, self: Address)

  /** What the escrow owes: unallocated funds and both credits. */
  function Owed(a: Accounting): nat {
    a.unallocated + a.tenantCredit + a.landlordCredit
  }

  /** What the escrow holds beyond what it owes. */
  function Surplus(w: World): int {
    Balance(w.ledger, w.self) - Owed(w.escrow.accounting)
  }

  /** The credit a withdrawal pays out. */
  function CreditOf(s: State, beneficiary: Address): nat {
    if beneficiary == s.terms.tenant then s.accounting.tenantCredit
    else if beneficiary == s.terms.landlord then s.accounting.landlordCredit
    else 0
  }

  /** Pulling a deposit: the token moves it, and the escrow's balance must grow by exactly that amount. */
  function Pull(w: World, sender: Address, amount: nat): (TokenAnswer, Ledger) {
    match TransferFrom(w.ledger, w.self, sender, w.self, amount)
    case Refused(_) => (CallFailed, w.ledger)
    case Booked(l) =>
      if Balance(l, w.self) >= Balance(w.ledger, w.self)
         && Balance(l, w.self) - Balance(w.ledger, w.self) == amount
      then (TokenAnswer.Moved, l) else (WrongDelta, w.ledger)
  }

  function Pay(w: World, beneficiary: Address): (TokenAnswer, Ledger) {
    match Transfer(w.ledger, w.self, beneficiary, CreditOf(w.escrow, beneficiary))
    case Refused(_) => (CallFailed, w.ledger)
    case Booked(l) => (TokenAnswer.Moved, l)
  }

  /** A call to the escrow, with the token answering as its ledger does. */
  function Answered(w: World, sender: Address, call: Call): (Call, Ledger) {
    match call
    case CallFund(amount, registry, _) =>
      var (answer, l) := Pull(w, sender, amount);
      (CallFund(amount, registry, answer), l)
    case CallWithdraw(_) =>
      var (answer, l) := Pay(w, sender);
      (CallWithdraw(answer), l)
    case CallWithdrawFor(b, _) =>
      var (answer, l) := Pay(w, b);
      (CallWithdrawFor(b, answer), l)
    case _ => (call, w.ledger)
  }

  /** The escrow's side of a call: both contracts change, or, on a revert, neither does. A call that stops
      before it reaches the token leaves the ledger alone. */
  function EscrowStep(w: World, sender: Address, now: nat, call: Call): World {
    var (answered, l) := Answered(w, sender, call);
    var o := Exec(w.escrow, sender, now, answered);
    if o.Reverted? then w
    else w.(escrow := o.state, ledger := if o.state == w.escrow then w.ledger else l)
  }

  function TokenStep(w: World, sender: Address, call: TokenCall): World {
    match TokenExec(w.ledger, sender, call)
    case Refused(_) => w
    case Booked(l) => w.(ledger := l)
  }

  datatype Target = ToEscrow(call: Call) | ToToken(tokenCall: TokenCall)
  datatype Message = Message(sender: Address, now: nat, target: Target)

  /** One transaction. The escrow itself sends none: it has no code that calls the token otherwise. */
  function WorldStep(w: World, m: Message): World {
    if m.sender == w.self then w
    else match m.target
         case ToEscrow(call) => EscrowStep(w, m.sender, m.now, call)
         case ToToken(call) => TokenStep(w, m.sender, call)
  }

  function WorldRun(w: World, ms: seq<Message>): World
    decreases |ms|
  {
    if ms == [] then w else WorldRun(WorldStep(w, ms[0]), ms[1..])
  }

  /** The escrow has allowed no one to spend its tokens. */
  ghost predicate NoAllowance(l: Ledger, self: Address) {
    forall p: Address :: Allowance(l, self, p) == 0
  }

  /** What holds in every world a deployment can lead to. */
  ghost predicate WorldInv(w: World) {
    && Inv(w.escrow) && Sound(w.ledger) && NoAllowance(w.ledger, w.self) && w.self != ZERO_ADDRESS
    && Surplus(w) >= 0
  }

  /** A new escrow on any sound ledger starts solvent: it owes nothing yet. */
  lemma DeploySolvent(t: Terms, factory: Address, now: nat, l: Ledger, self: Address)
    requires Deploy(t, factory, now).Done? && Sound(l) && NoAllowance(l, self) && self != ZERO_ADDRESS
    ensures WorldInv(World(Deploy(t, factory, now).state, l, self))
  {
    DeployEstablishes(t, factory, now);
    hide Inv, Total;
  }

  lemma FundOwes(s: State, sender: Address, now: nat, amount: nat, registry: RegistryAnswer, token: TokenAnswer)
    requires Inv(s) && Fund(s, sender, now, amount, registry, token).Done?
    ensures token.Moved? && sender == s.terms.tenant && amount > 0
    ensures Owed(Fund(s, sender, now, amount, registry, token).state.accounting) == Owed(s.accounting) + amount
    ensures Fund(s, sender, now, amount, registry, token).state != s
  {
  }

  lemma WithdrawOwes(s: State, sender: Address, to: Address, allowZero: bool, token: TokenAnswer)
    requires Inv(s)
    ensures var o := WithdrawTo(s, sender, to, allowZero, token);
      if !IsParty(s.terms, to) then o == Reverted(Unauthorized)
      else if CreditOf(s, to) == 0 then o == (if allowZero then Done(s) else Reverted(NothingToWithdraw))
      else if !token.Moved? then o == Reverted(TransferFailed)
      else o.Done? && o.state != s && Owed(o.state.accounting) == Owed(s.accounting) - CreditOf(s, to)
  {
    hide TotalFrom, ClaimsOk, ScheduleOk, CaseOk, ProposalOk, Folded;
  }

  lemma OtherOwes(s: State, sender: Address, now: nat, call: Call)
    requires Inv(s) && !call.CallFund? && !IsWithdrawal(call) && Exec(s, sender, now, call).Done?
    ensures Owed(Exec(s, sender, now, call).state.accounting) == Owed(s.accounting)
  {
    hide Exec, Inv, Folded, LogAgrees, LandlordGap;
    ExecMoves(s, sender, now, call);
  }

  /** The delta check of `fund` passes whenever the token moved the deposit from somebody else. */
  lemma PullExactly(w: World, sender: Address, amount: nat)
    requires Sound(w.ledger) && w.self != ZERO_ADDRESS && amount > 0
    ensures Pull(w, sender, amount).0.Moved? <==>
      && sender != w.self && amount <= Balance(w.ledger, sender)
      && (amount <= Allowance(w.ledger, sender, w.self) || Allowance(w.ledger, sender, w.self) == UINT_MAX)
    ensures var l := Pull(w, sender, amount).1;
      Pull(w, sender, amount).0.Moved? ==>
        && Sound(l) && (NoAllowance(w.ledger, w.self) ==> NoAllowance(l, w.self))
        && Balance(l, w.self) == Balance(w.ledger, w.self) + amount
        && Balance(l, sender) == Balance(w.ledger, sender) - amount
  {
    hide Sound, Total;
    TransferFromExactly(w.ledger, w.self, sender, w.self, amount);
    TransferExactly(w.ledger, sender, w.self, amount);
    hide TransferFrom, Transfer;
  }

  /** The payment of a credit always succeeds: a solvent escrow can pay what it owes. */
  lemma PayExactly(w: World, to: Address)
    requires WorldInv(w) && IsParty(w.escrow.terms, to)
    ensures Pay(w, to).0.Moved?
    ensures var l := Pay(w, to).1;
      && Sound(l) && NoAllowance(l, w.self)
      && (to != w.self ==> Balance(l, w.self) == Balance(w.ledger, w.self) - CreditOf(w.escrow, to)
                           && Balance(l, to) == Balance(w.ledger, to) + CreditOf(w.escrow, to))
      && (to == w.self ==> Balance(l, w.self) == Balance(w.ledger, w.self))
  {
    PartyNotZero(w.escrow, to);
    hide Inv, Sound, Total;
    hide Transfer;
    TransferExactly(w.ledger, w.self, to, CreditOf(w.escrow, to));
    assert CreditOf(w.escrow, to) <= Balance(w.ledger, w.self);
    assert Transfer(w.ledger, w.self, to, CreditOf(w.escrow, to)).Booked?;
    var l := Transfer(w.ledger, w.self, to, CreditOf(w.escrow, to)).ledger;
    assert Pay(w, to) == (TokenAnswer.Moved, l);
    SameAllowances(w.ledger, l, w.self);
  }

  lemma SameAllowances(l: Ledger, m: Ledger, owner: Address)
    requires NoAllowance(l, owner) && m.allowances == l.allowances
    ensures NoAllowance(m, owner)
  {
    forall p: Address ensures Allowance(m, owner, p) == 0 { assert Allowance(l, owner, p) == 0; }
  }

  lemma PartyNotZero(s: State, a: Address)
    requires Inv(s) && IsParty(s.terms, a)
    ensures a != ZERO_ADDRESS
  {
  }

  lemma FundStepSolvent(w: World, sender: Address, now: nat, amount: nat, registry: RegistryAnswer, token: TokenAnswer)
    requires WorldInv(w) && sender != w.self
    ensures WorldInv(EscrowStep(w, sender, now, CallFund(amount, registry, token)))
    ensures Surplus(EscrowStep(w, sender, now, CallFund(amount, registry, token))) == Surplus(w)
  {
    hide Inv, Sound, Total, Pull, Fund;
    var (answer, l) := Pull(w, sender, amount);
    var o := Fund(w.escrow, sender, now, amount, registry, answer);
    if o.Done? {
      FundOwes(w.escrow, sender, now, amount, registry, answer);
      PullExactly(w, sender, amount);
      FundKeeps(w.escrow, sender, now, amount, registry, answer);
    }
  }

  /** A withdrawal, of one's own credit or somebody's, as a step of the joint world. */
  lemma WithdrawStepForm(w: World, sender: Address, now: nat, to: Address, own: bool, token: TokenAnswer)
    requires own ==> to == sender
    ensures var call := if own then CallWithdraw(token) else CallWithdrawFor(to, token);
      var o := WithdrawTo(w.escrow, sender, to, !own, Pay(w, to).0);
      EscrowStep(w, sender, now, call)
      == if o.Reverted? then w
         else w.(escrow := o.state, ledger := if o.state == w.escrow then w.ledger else Pay(w, to).1)
  {
    hide WithdrawTo, Pay;
  }

  lemma WithdrawStepSolvent(w: World, sender: Address, now: nat, to: Address, own: bool, token: TokenAnswer)
    requires WorldInv(w) && (own ==> to == sender)
    ensures var call := if own then CallWithdraw(token) else CallWithdrawFor(to, token);
      var v := EscrowStep(w, sender, now, call);
      && WorldInv(v)
      && (to != w.self ==> Surplus(v) == Surplus(w)) && Surplus(v) >= Surplus(w)
  {
    hide Inv, Sound, Total, Pay, WithdrawTo, CreditOf, Surplus, EscrowStep;
    var (answer, l) := Pay(w, to);
    WithdrawStepForm(w, sender, now, to, own, token);
    WithdrawOwes(w.escrow, sender, to, !own, answer);
    if IsParty(w.escrow.terms, to) && CreditOf(w.escrow, to) > 0 {
      PayExactly(w, to);
      WithdrawToKeeps(w.escrow, sender, to, !own, answer);
      PaidSurplus(w, WithdrawTo(w.escrow, sender, to, !own, answer).state, l, to);
    }
  }

  /** What a payment does to the surplus. */
  lemma PaidSurplus(w: World, s: State, l: Ledger, to: Address)
    requires Owed(s.accounting) == Owed(w.escrow.accounting) - CreditOf(w.escrow, to)
    requires if to != w.self then Balance(l, w.self) == Balance(w.ledger, w.self) - CreditOf(w.escrow, to)
             else Balance(l, w.self) == Balance(w.ledger, w.self)
    ensures var v := w.(escrow := s, ledger := l);
      Surplus(v) >= Surplus(w) && (to != w.self ==> Surplus(v) == Surplus(w))
  {
    hide Balance, Owed;
  }

  lemma OtherStepSolvent(w: World, sender: Address, now: nat, call: Call)
    requires WorldInv(w) && !call.CallFund? && !IsWithdrawal(call)
    ensures WorldInv(EscrowStep(w, sender, now, call)) && Surplus(EscrowStep(w, sender, now, call)) == Surplus(w)
  {
    hide Inv, Sound, Total, Exec;
    if Exec(w.escrow, sender, now, call).Done? {
      OtherOwes(w.escrow, sender, now, call);
      ExecKeeps(w.escrow, sender, now, call);
    }
  }

  /** A call to the escrow never lowers its surplus, and changes it only by paying a credit to itself. */
  lemma EscrowStepSolvent(w: World, sender: Address, now: nat, call: Call)
    requires WorldInv(w) && sender != w.self
    ensures WorldInv(EscrowStep(w, sender, now, call))
    ensures Surplus(EscrowStep(w, sender, now, call)) >= Surplus(w)
    ensures !(call.CallWithdrawFor? && call.beneficiary == w.self) ==>
      Surplus(EscrowStep(w, sender, now, call)) == Surplus(w)
  {
    hide WorldInv, EscrowStep, Surplus;
    match call
    case CallFund(amount, registry, token) => FundStepSolvent(w, sender, now, amount, registry, token);
    case CallWithdraw(token) => WithdrawStepSolvent(w, sender, now, sender, true, token);
    case CallWithdrawFor(b, token) => WithdrawStepSolvent(w, sender, now, b, false, token);
    case _ => OtherStepSolvent(w, sender, now, call);
  }

  /** A call to the token by anyone else never lowers the escrow's surplus; stray tokens raise it. */
  lemma TokenStepSolvent(w: World, sender: Address, call: TokenCall)
    requires WorldInv(w) && sender != w.self
    ensures WorldInv(TokenStep(w, sender, call)) && Surplus(TokenStep(w, sender, call)) >= Surplus(w)
  {
    hide Inv, Sound, Total, TokenExec;
    if TokenExec(w.ledger, sender, call).Booked? {
      TokenKeepsSound(w.ledger, sender, call);
      OwnFunds(w.ledger, sender, call, w.self);
    }
  }

  /** Solvency on every run of both contracts: the balance covers unallocated funds and credits, the supply is
      the sum of the balances, nobody may spend the escrow's tokens, and the surplus never falls. */
  lemma {:induction false} WorldRunSolvent(w: World, ms: seq<Message>)
    requires WorldInv(w)
    ensures WorldInv(WorldRun(w, ms)) && Surplus(WorldRun(w, ms)) >= Surplus(w)
    decreases |ms|
  {
    hide WorldInv, EscrowStep, TokenStep, Surplus;
    if ms != [] {
      var m := ms[0];
      if m.sender != w.self {
        match m.target {
          case ToEscrow(call) => EscrowStepSolvent(w, m.sender, m.now, call);
          case ToToken(call) => TokenStepSolvent(w, m.sender, call);
        }
      }
      WorldRunSolvent(WorldStep(w, m), ms[1..]);
    }
  }

  /** In every such world, a party's withdrawal succeeds exactly when he has credit, whatever else happened;
      he receives it in full. */
  lemma WithdrawalPays(w: World, sender: Address, now: nat)
    requires WorldInv(w) && sender != w.self
    ensures var v := EscrowStep(w, sender, now, CallWithdraw(CallFailed));
      if CreditOf(w.escrow, sender) == 0 then v == w
      else && CreditOf(v.escrow, sender) == 0
           && Balance(v.ledger, sender) == Balance(w.ledger, sender) + CreditOf(w.escrow, sender)
  {
    hide Inv, Sound, Total, Pay, WithdrawTo, EscrowStep, CreditOf, WorldInv;
    WithdrawStepForm(w, sender, now, sender, true, CallFailed);
    WithdrawOwesIn(w, sender);
    if CreditOf(w.escrow, sender) > 0 {
      PayExactly(w, sender);
      CreditCleared(w.escrow, sender, sender, false, Pay(w, sender).0);
    }
  }

  lemma WithdrawOwesIn(w: World, sender: Address)
    requires WorldInv(w)
    ensures var o := WithdrawTo(w.escrow, sender, sender, false, Pay(w, sender).0);
      if !IsParty(w.escrow.terms, sender) || CreditOf(w.escrow, sender) == 0 then o.Reverted?
      else Pay(w, sender).0.Moved? ==> o.Done? && o.state != w.escrow
    ensures CreditOf(w.escrow, sender) > 0 ==> IsParty(w.escrow.terms, sender)
  {
    hide Inv, Sound, Total, Pay, WithdrawTo, NoAllowance, Surplus;
    WithdrawOwes(w.escrow, sender, sender, false, Pay(w, sender).0);
  }

  lemma CreditCleared(s: State, sender: Address, to: Address, allowZero: bool, token: TokenAnswer)
    requires WithdrawTo(s, sender, to, allowZero, token).Done?
    ensures CreditOf(WithdrawTo(s, sender, to, allowZero, token).state, to) == 0
  {
    hide Folded;
  }

  /** Funding with this token succeeds exactly when the lease accepts funding and the tenant has the deposit and
      has allowed the escrow to take it. */
  lemma FundingExactly(w: World, sender: Address, now: nat, amount: nat, registry: RegistryAnswer)
    requires WorldInv(w) && sender != w.self
    ensures var t := w.escrow.terms;
      var v := EscrowStep(w, sender, now, CallFund(amount, registry, CallFailed));
      v.escrow.phase.Active? && !w.escrow.phase.Active? <==>
        && sender == t.tenant && w.escrow.phase.AwaitingFunding? && now < t.acceptDeadline
        && amount == t.depositAmount && registry.Eligible? && amount <= Balance(w.ledger, sender)
        && (amount <= Allowance(w.ledger, sender, w.self) || Allowance(w.ledger, sender, w.self) == UINT_MAX)
  {
    hide Sound, Total, Pull, TotalFrom, ClaimsOk, CaseOk, ScheduleOk, ProposalOk, Folded;
    if amount == w.escrow.terms.depositAmount { PullExactly(w, sender, amount); }
  }
}

/** The test token: what each call does to its ledger, and why no unit is ever created or lost outside minting
    (contracts/src/MockUSD.sol). */
module TokenLedger {
  import opened RentBondRules
  import opened EscrowTypes

  datatype TokenError = NotOperator | ZeroAddress | InsufficientBalance | InsufficientAllowance | TokenPanic

  datatype Ledger = Ledger(
    operator: Address, totalSupply: nat,
    balances: map<Address, nat>, allowances: map<(Address, Address), nat>)

  datatype TokenOutcome = Refused(error: TokenError) | Booked(ledger: Ledger)

  function Lookup<K>(m: map<K, nat>, k: K): nat {
    if k in m then m[k] else 0
  }

  function Balance(l: Ledger, a: Address): nat {
    Lookup(l.balances, a)
  }

  function Allowance(l: Ledger, owner: Address, spender: Address): nat {
    Lookup(l.allowances, (owner, spender))
  }

  function NewLedger(operator: Address): Ledger {
    Ledger(operator, 0, map[], map[])
  }

  function Mint(l: Ledger, sender: Address, to: Address, amount: nat): TokenOutcome {
    if sender != l.operator then Refused(NotOperator)
    else if to == ZERO_ADDRESS then Refused(ZeroAddress)
    else if l.totalSupply + amount > UINT_MAX || Balance(l, to) + amount > UINT_MAX then Refused(TokenPanic)
    else Booked(l.(totalSupply := l.totalSupply + amount,
                     balances := l.balances[to := Balance(l, to) + amount]))
  }

  function Approve(l: Ledger, sender: Address, spender: Address, amount: nat): TokenOutcome {
    if spender == ZERO_ADDRESS then Refused(ZeroAddress)
    else Booked(l.(allowances := l.allowances[(sender, spender) := amount]))
  }

  function Transfer(l: Ledger, from: Address, to: Address, amount: nat): TokenOutcome {
    if to == ZERO_ADDRESS then Refused(ZeroAddress)
    else if Balance(l, from) < amount then Refused(InsufficientBalance)
    else
      var debited := l.(balances := l.balances[from := Balance(l, from) - amount]);
      if Balance(debited, to) + amount > UINT_MAX then Refused(TokenPanic)
      else Booked(debited.(balances := debited.balances[to := Balance(debited, to) + amount]))
  }

  function TransferFrom(l: Ledger, sender: Address, from: Address, to: Address, amount: nat): TokenOutcome {
    var approved := Allowance(l, from, sender);
    if approved == UINT_MAX then Transfer(l, from, to, amount)
    else if approved < amount then Refused(InsufficientAllowance)
    else Transfer(l.(allowances := l.allowances[(from, sender) := approved - amount]), from, to, amount)
  }

  /** The sum of all balances. */
  ghost function Total(m: map<Address, nat>): nat
    decreases |m|
  {
    if m == map[] then 0
    else
      var a :| a in m;
      m[a] + Total(m - {a})
  }

  lemma Without(m: map<Address, nat>, a: Address)
    requires a in m
    ensures |m - {a}| == |m| - 1
  {
    assert (m - {a}).Keys == m.Keys - {a};
    assert |(m - {a}).Keys| == |m.Keys| - 1;
  }

  /** The sum does not depend on which holder is counted first. */
  lemma {:induction false} TotalSplit(m: map<Address, nat>, a: Address)
    requires a in m
    ensures Total(m) == m[a] + Total(m - {a})
    decreases |m|
  {
    var b :| b in m && Total(m) == m[b] + Total(m - {b});
    if a != b {
      Without(m, a);
      Without(m, b);
      TotalSplit(m - {b}, a);
      TotalSplit(m - {a}, b);
      assert m - {a} - {b} == m - {b} - {a};
    }
  }

  /** Changing one balance changes the sum by the difference. */
  lemma TotalSet(m: map<Address, nat>, a: Address, v: nat)
    ensures Total(m[a := v]) + Lookup(m, a) == Total(m) + v
  {
    TotalSplit(m[a := v], a);
    if a in m {
      TotalSplit(m, a);
      assert m[a := v] - {a} == m - {a};
    } else {
      assert m[a := v] - {a} == m;
    }
  }

  /** No one holds more than there is. */
  lemma HolderBound(m: map<Address, nat>, a: Address)
    ensures Lookup(m, a) <= Total(m)
  {
    if a in m { TotalSplit(m, a); }
  }

  lemma HoldersBound(m: map<Address, nat>, a: Address, b: Address)
    requires a != b
    ensures Lookup(m, a) + Lookup(m, b) <= Total(m)
  {
    if a in m {
      TotalSplit(m, a);
      HolderBound(m - {a}, b);
    } else {
      HolderBound(m, b);
    }
  }

  /** The supply is exactly what the holders have together, and fits its width. */
  ghost predicate Sound(l: Ledger) {
    l.totalSupply == Total(l.balances) <= UINT_MAX
  }

  lemma MintSound(l: Ledger, sender: Address, to: Address, amount: nat)
    requires Sound(l) && Mint(l, sender, to, amount).Booked?
    ensures Sound(Mint(l, sender, to, amount).ledger)
  {
    TotalSet(l.balances, to, Balance(l, to) + amount);
  }

  /** A transfer, when it is accepted, and everything it does: it moves the amount, and touches no other
      balance, the supply or any allowance; the addition cannot overflow on a sound ledger. */
  lemma TransferExactly(l: Ledger, from: Address, to: Address, amount: nat)
    requires Sound(l)
    ensures Transfer(l, from, to, amount).Booked? <==> to != ZERO_ADDRESS && amount <= Balance(l, from)
    ensures Transfer(l, from, to, amount).Booked? ==>
      var r := Transfer(l, from, to, amount).ledger;
      && Sound(r) && r.totalSupply == l.totalSupply && r.operator == l.operator && r.allowances == l.allowances
      && (from != to ==> Balance(r, from) == Balance(l, from) - amount && Balance(r, to) == Balance(l, to) + amount)
      && (forall a: Address :: a != from && a != to ==> Balance(r, a) == Balance(l, a))
      && (from == to ==> Balance(r, to) == Balance(l, to))
  {
    hide Total;
    if to != ZERO_ADDRESS && amount <= Balance(l, from) {
      var debited := l.balances[from := Balance(l, from) - amount];
      TotalSet(l.balances, from, Balance(l, from) - amount);
      TotalSet(debited, to, Lookup(debited, to) + amount);
      if from == to { HolderBound(l.balances, to); } else { HoldersBound(l.balances, from, to); }
    }
  }

  /** A delegated transfer, when it is accepted, and what it does beside the transfer: an allowance is used up
      unless it is the largest one, which stands for an unlimited one. */
  lemma TransferFromExactly(l: Ledger, sender: Address, from: Address, to: Address, amount: nat)
    requires Sound(l)
    ensures TransferFrom(l, sender, from, to, amount).Booked? <==>
      to != ZERO_ADDRESS && amount <= Balance(l, from)
      && (amount <= Allowance(l, from, sender) || Allowance(l, from, sender) == UINT_MAX)
    ensures TransferFrom(l, sender, from, to, amount).Booked? ==>
      var r := TransferFrom(l, sender, from, to, amount).ledger;
      && Sound(r) && r.balances == Transfer(l, from, to, amount).ledger.balances
      && r.totalSupply == l.totalSupply && r.operator == l.operator
      && Allowance(r, from, sender) == (if Allowance(l, from, sender) == UINT_MAX then UINT_MAX
                                        else Allowance(l, from, sender) - amount)
      && (forall o: Address, p: Address :: (o, p) != (from, sender) ==> Allowance(r, o, p) == Allowance(l, o, p))
  {
    hide Total, Transfer;
    TransferExactly(l, from, to, amount);
    var approved := Allowance(l, from, sender);
    if amount <= approved && approved != UINT_MAX {
      AllowancesApart(l, l.allowances[(from, sender) := approved - amount], from, to, amount);
    }
  }

  /** A transfer neither looks at the allowances nor changes them. */
  lemma AllowancesApart(l: Ledger, m: map<(Address, Address), nat>, from: Address, to: Address, amount: nat)
    ensures Transfer(l.(allowances := m), from, to, amount) ==
      match Transfer(l, from, to, amount)
      case Refused(e) => Refused(e)
      case Booked(r) => Booked(r.(allowances := m))
  {
  }

  /** A call somebody makes to the token. */
  datatype TokenCall =
    | CallMint(to: Address, amount: nat)
    | CallApprove(spender: Address, amount: nat)
    | CallTransfer(to: Address, amount: nat)
    | CallTransferFrom(from: Address, to: Address, amount: nat)

  function TokenExec(l: Ledger, sender: Address, call: TokenCall): TokenOutcome {
    match call
    case CallMint(to, amount) => Mint(l, sender, to, amount)
    case CallApprove(spender, amount) => Approve(l, sender, spender, amount)
    case CallTransfer(to, amount) => Transfer(l, sender, to, amount)
    case CallTransferFrom(from, to, amount) => TransferFrom(l, sender, from, to, amount)
  }

  /** Every token call keeps supply and balances in agreement. */
  lemma TokenKeepsSound(l: Ledger, sender: Address, call: TokenCall)
    requires Sound(l) && TokenExec(l, sender, call).Booked?
    ensures Sound(TokenExec(l, sender, call).ledger)
  {
    match call
    case CallMint(to, amount) => MintSound(l, sender, to, amount);
    case CallApprove(_, _) =>
    case CallTransfer(to, amount) => TransferExactly(l, sender, to, amount);
    case CallTransferFrom(from, to, amount) => TransferFromExactly(l, sender, from, to, amount);
  }

  /** Nobody but its owner lowers a balance, except a spender the owner has allowed. */
  lemma OwnFunds(l: Ledger, sender: Address, call: TokenCall, owner: Address)
    requires Sound(l) && TokenExec(l, sender, call).Booked?
    requires sender != owner && Allowance(l, owner, sender) == 0
    ensures Balance(TokenExec(l, sender, call).ledger, owner) >= Balance(l, owner)
    ensures forall p: Address :: Allowance(TokenExec(l, sender, call).ledger, owner, p) == Allowance(l, owner, p)
  {
    match call
    case CallMint(_, _) =>
    case CallApprove(_, _) =>
    case CallTransfer(to, amount) => TransferExactly(l, sender, to, amount);
    case CallTransferFrom(from, to, amount) =>
      TransferExactly(l, from, to, amount);
      TransferFromExactly(l, sender, from, to, amount);
  }
}

/** The token as an object whose mappings change in place. */
module MockUsdContract {
  import opened Options
  import opened RentBondRules
  import opened EscrowTypes
  import Spec = TokenLedger

  /** The call did what the outcome says; refused, it changed nothing. */
  predicate Matches(o: Spec.TokenOutcome, before: Spec.Ledger, after: Spec.Ledger, err: Option<Spec.TokenError>) {
    match o
    case Refused(e) => err == Some(e) && after == before
    case Booked(l) => err.None? && after == l
  }

  class MockUsd {
    const mintOperator: Address
    var totalSupply: nat
    var balanceOf: map<Address, nat>
    var allowance: map<(Address, Address), nat>

    function Current(): Spec.Ledger
      reads this
    {
      Spec.Ledger(mintOperator, totalSupply, balanceOf, allowance)
    }

    constructor (operator: Address)
      ensures Current() == Spec.NewLedger(operator) && Spec.Sound(Current())
    {
      mintOperator, totalSupply, balanceOf, allowance := operator, 0, map[], map[];
    }

    /** Deployment; the zero address cannot be the operator. */
    static method Deploy(operator: Address) returns (err: Option<Spec.TokenError>, token: MockUsd?)
      ensures operator == ZERO_ADDRESS ==> err == Some(Spec.ZeroAddress)
      ensures operator != ZERO_ADDRESS ==>
        err.None? && token != null && fresh(token) && token.Current() == Spec.NewLedger(operator)
    {
      if operator == ZERO_ADDRESS { return Some(Spec.ZeroAddress), null; }
      token := new MockUsd(operator);
      err := None;
    }

    method Mint(sender: Address, to: Address, amount: nat) returns (err: Option<Spec.TokenError>)
      modifies this
      ensures Matches(Spec.Mint(old(Current()), sender, to, amount), old(Current()), Current(), err)
    {
      if sender != mintOperator { return Some(Spec.NotOperator); }
      if to == ZERO_ADDRESS { return Some(Spec.ZeroAddress); }
      if totalSupply + amount > UINT_MAX { return Some(Spec.TokenPanic); }
      var supply := totalSupply;
      totalSupply := totalSupply + amount;
      if Spec.Lookup(balanceOf, to) + amount > UINT_MAX {
        totalSupply := supply;
        return Some(Spec.TokenPanic);
      }
      balanceOf := balanceOf[to := Spec.Lookup(balanceOf, to) + amount];
      err := None;
    }

    method Approve(sender: Address, spender: Address, amount: nat) returns (err: Option<Spec.TokenError>)
      modifies this
      ensures Matches(Spec.Approve(old(Current()), sender, spender, amount), old(Current()), Current(), err)
    {
      if spender == ZERO_ADDRESS { return Some(Spec.ZeroAddress); }
      allowance := allowance[(sender, spender) := amount];
      err := None;
    }

    /** `_transfer`: debit, then credit; a failed credit undoes the debit. */
    method Move(from: Address, to: Address, amount: nat) returns (err: Option<Spec.TokenError>)
      modifies this`balanceOf
      ensures Matches(Spec.Transfer(old(Current()), from, to, amount), old(Current()), Current(), err)
    {
      if to == ZERO_ADDRESS { return Some(Spec.ZeroAddress); }
      var saved := balanceOf;
      var balance := Spec.Lookup(balanceOf, from);
      if balance < amount { return Some(Spec.InsufficientBalance); }
      balanceOf := balanceOf[from := balance - amount];
      if Spec.Lookup(balanceOf, to) + amount > UINT_MAX {
        balanceOf := saved;
        return Some(Spec.TokenPanic);
      }
      balanceOf := balanceOf[to := Spec.Lookup(balanceOf, to) + amount];
      err := None;
    }

    method Transfer(sender: Address, to: Address, amount: nat) returns (err: Option<Spec.TokenError>)
      modifies this
      ensures Matches(Spec.Transfer(old(Current()), sender, to, amount), old(Current()), Current(), err)
    {
      err := Move(sender, to, amount);
    }

    method TransferFrom(sender: Address, from: Address, to: Address, amount: nat)
      returns (err: Option<Spec.TokenError>)
      modifies this
      ensures Matches(Spec.TransferFrom(old(Current()), sender, from, to, amount), old(Current()), Current(), err)
    {
      hide Spec.Transfer;
      var saved := allowance;
      var approved := Spec.Lookup(allowance, (from, sender));
      if approved != UINT_MAX {
        if approved < amount { return Some(Spec.InsufficientAllowance); }
        allowance := allowance[(from, sender) := approved - amount];
      }
      err := Move(from, to, amount);
      if err.Some? { allowance := saved; }
    }
  }
}

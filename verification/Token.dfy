// The 6-decimal token both sides of the venue are held in (contracts/TestUSD.sol).
module Token {
  import opened Types
  import opened Sums

  type Balances = map<Address, nat>
  type Allowances = map<(Address, Address), nat>

  datatype TokenState = TokenState(totalSupply: nat, balanceOf: Balances, allowance: Allowances)

  const MAX_ALLOWANCE: nat := U256 - 1

  function Mint(t: TokenState, to: Address, amount: nat): Tx<TokenState> {
    if At(t.balanceOf, to) + amount >= U256 then Revert(Overflow)
    else
      :- Need(t.totalSupply + amount < U256, Overflow);
      Done(t.(balanceOf := t.balanceOf[to := At(t.balanceOf, to) + amount], totalSupply := t.totalSupply + amount))
  }

  function Moved(b: Balances, from: Address, to: Address, amount: nat): Tx<Balances> {
    if At(b, from) < amount then Revert(InsufficientBalance)
    else
      var debited := b[from := At(b, from) - amount];
      :- Need(At(debited, to) + amount < U256, Overflow);
      Done(debited[to := At(debited, to) + amount])
  }

  function Transfer(t: TokenState, sender: Address, to: Address, amount: nat): Tx<TokenState> {
    var moved :- Moved(t.balanceOf, sender, to, amount);
    Done(t.(balanceOf := moved))
  }

  function Approve(t: TokenState, sender: Address, spender: Address, amount: nat): TokenState {
    t.(allowance := t.allowance[(sender, spender) := amount])
  }

  function TransferFrom(t: TokenState, sender: Address, from: Address, to: Address, amount: nat): Tx<TokenState> {
    var allowed := At(t.allowance, (from, sender));
    :- Need(allowed >= amount, InsufficientAllowance);
    var moved :- Moved(t.balanceOf, from, to, amount);
    Done(t.(balanceOf := moved,
            allowance := if allowed == MAX_ALLOWANCE then t.allowance
                         else t.allowance[(from, sender) := allowed - amount]))
  }

  // --- What every call keeps -------------------------------------------------

  // The balances add up to the supply, which fits in a word.
  ghost predicate Sound(t: TokenState) {
    Total(t.balanceOf) == t.totalSupply < U256
  }

  lemma MintSound(t: TokenState, to: Address, amount: nat)
    requires Sound(t) && Mint(t, to, amount).Done?
    ensures Sound(Mint(t, to, amount).value)
  {
    TotalSet(t.balanceOf, to, At(t.balanceOf, to) + amount);
  }

  // A move keeps the total, and never overflows: it fails only for want of balance.
  lemma MoveKeepsTotal(b: Balances, from: Address, to: Address, amount: nat)
    requires Total(b) < U256
    ensures Moved(b, from, to, amount).Done? <==> At(b, from) >= amount
    ensures Moved(b, from, to, amount).Done? ==> Total(Moved(b, from, to, amount).value) == Total(b)
  {
    if At(b, from) >= amount {
      var debited := b[from := At(b, from) - amount];
      TotalSet(b, from, At(b, from) - amount);
      AtMostTotal(debited, to);
      TotalSet(debited, to, At(debited, to) + amount);
    }
  }

  lemma MoveMoves(b: Balances, from: Address, to: Address, amount: nat, a: Address)
    requires Moved(b, from, to, amount).Done?
    ensures At(Moved(b, from, to, amount).value, a)
         == At(b, a) - (if a == from then amount else 0) + (if a == to then amount else 0)
  {
  }

  // --- The contract ----------------------------------------------------------

  class TestUSD {
    var totalSupply: nat
    var balanceOf: Balances
    var allowance: Allowances

    constructor ()
      ensures State() == TokenState(0, map[], map[])
    {
      totalSupply, balanceOf, allowance := 0, map[], map[];
    }

    function State(): TokenState
      reads this
    {
      TokenState(totalSupply, balanceOf, allowance)
    }

    // A reverted transaction puts back the state it found.
    method Rollback(saved: TokenState)
      modifies this
      ensures State() == saved
    {
      totalSupply, balanceOf, allowance := saved.totalSupply, saved.balanceOf, saved.allowance;
    }

    method MintTo(to: Address, amount: nat) returns (r: Check)
      modifies this
      ensures Took(Mint(old(State()), to, amount), old(State()), State(), r)
    {
      if At(balanceOf, to) + amount >= U256 || totalSupply + amount >= U256 {
        return Fail(Overflow);
      }
      balanceOf := balanceOf[to := At(balanceOf, to) + amount];
      totalSupply := totalSupply + amount;
      return Pass;
    }

    method TransferTo(sender: Address, to: Address, amount: nat) returns (r: Check)
      modifies this
      ensures Took(Transfer(old(State()), sender, to, amount), old(State()), State(), r)
    {
      var saved := State();
      if At(balanceOf, sender) < amount {
        return Fail(InsufficientBalance);
      }
      balanceOf := balanceOf[sender := At(balanceOf, sender) - amount];
      if At(balanceOf, to) + amount >= U256 {
        Rollback(saved);
        return Fail(Overflow);
      }
      balanceOf := balanceOf[to := At(balanceOf, to) + amount];
      return Pass;
    }

    method ApproveSpender(sender: Address, spender: Address, amount: nat)
      modifies this
      ensures State() == Approve(old(State()), sender, spender, amount)
    {
      allowance := allowance[(sender, spender) := amount];
    }

    method TransferFromTo(sender: Address, from: Address, to: Address, amount: nat) returns (r: Check)
      modifies this
      ensures Took(TransferFrom(old(State()), sender, from, to, amount), old(State()), State(), r)
    {
      var saved := State();
      var allowed := At(allowance, (from, sender));
      if allowed < amount {
        return Fail(InsufficientAllowance);
      }
      if At(balanceOf, from) < amount {
        return Fail(InsufficientBalance);
      }
      if allowed != MAX_ALLOWANCE {
        allowance := allowance[(from, sender) := allowed - amount];
      }
      balanceOf := balanceOf[from := At(balanceOf, from) - amount];
      if At(balanceOf, to) + amount >= U256 {
        Rollback(saved);
        return Fail(Overflow);
      }
      balanceOf := balanceOf[to := At(balanceOf, to) + amount];
      return Pass;
    }
  }
}

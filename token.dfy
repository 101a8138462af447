/** The deployed Kenshi ledger: one object whose balance and allowance maps
    and owner slot are updated in place by each transaction. Every method
    takes the address of the account that sends the transaction as `caller`,
    and is proved to make exactly the transition the functions of module
    Ledger describe, reverting to the old state on every error. */
module Token {
  import opened Ledger

  class Kenshi {
    /** The ledger's own account (`address(this)`). */
    const address: Address
    const totalSupply: Uint256
    const name: string
    const symbol: string
    const decimals: nat

    var balances: map<Address, nat>
    var allowances: map<(Address, Address), Uint256>
    var owner: Address

    /** The current state as a value. */
    function Snapshot(): State
      reads this
    {
      State(balances, allowances, owner)
    }

    ghost predicate Valid()
      reads this
    {
      address != ZERO && Ledger.Valid(Snapshot(), totalSupply)
    }

    /** Deployment by `deployer` at `address`: the deployer receives the whole
        supply and becomes the owner. */
    constructor (deployer: Address, address: Address, supply: Uint256)
      requires deployer != ZERO && address != ZERO
      ensures Valid()
      ensures Snapshot() == Initial(deployer, supply)
      ensures this.address == address && totalSupply == supply
      ensures name == NAME && symbol == SYMBOL && decimals == DECIMALS
    {
      this.address := address;
      totalSupply := supply;
      name, symbol, decimals := NAME, SYMBOL, DECIMALS;
      balances := map[deployer := supply];
      allowances := map[];
      owner := deployer;
      InitialState(deployer, supply);
    }

    /** balanceOf(account): never more than the total supply. */
    function BalanceOf(account: Address): (b: nat)
      reads this
      ensures Valid() ==> b <= totalSupply
    {
      BalanceAtMostSupply(Snapshot(), totalSupply, account);
      Ledger.BalanceOf(Snapshot(), account)
    }

    /** allowance(holder, spender): only a live holder can have granted one. */
    function Allowance(holder: Address, spender: Address): (a: Uint256)
      reads this
      ensures Valid() && holder == ZERO ==> a == 0
    {
      Ledger.Allowance(Snapshot(), holder, spender)
    }

    /** The balance move shared by transfer, transferFrom and recovery. */
    method Move(from: Address, to: Address, amount: Uint256) returns (r: Outcome)
      requires Valid()
      modifies this
      ensures Valid()
      ensures (r, Snapshot()) == Commit(old(Snapshot()), Ledger.Transfer(old(Snapshot()), from, to, amount))
    {
      if from == ZERO { return Failure(TransferFromZero); }
      if to == ZERO { return Failure(TransferToZero); }
      var fromBalance := BalanceOf(from);
      if fromBalance < amount { return Failure(TransferExceedsBalance); }
      TransferPreservesValid(Snapshot(), totalSupply, from, to, amount);
      balances := balances[from := fromBalance - amount];
      balances := balances[to := BalanceOf(to) + amount];
      r := Success;
    }

    /** The allowance write shared by approve and its extensions. */
    method SetAllowance(holder: Address, spender: Address, amount: Uint256) returns (r: Outcome)
      requires Valid()
      modifies this
      ensures Valid()
      ensures (r, Snapshot()) == Commit(old(Snapshot()), Ledger.Approve(old(Snapshot()), holder, spender, amount))
    {
      if holder == ZERO { return Failure(ApproveFromZero); }
      if spender == ZERO { return Failure(ApproveToZero); }
      ApprovePreservesValid(Snapshot(), totalSupply, holder, spender, amount);
      allowances := allowances[(holder, spender) := amount];
      r := Success;
    }

    /** transfer(to, amount) */
    method Transfer(caller: Address, to: Address, amount: Uint256) returns (r: Outcome)
      requires Valid()
      modifies this
      ensures Valid()
      ensures (r, Snapshot()) == Commit(old(Snapshot()), Ledger.Transfer(old(Snapshot()), caller, to, amount))
    {
      r := Move(caller, to, amount);
    }

    /** approve(spender, amount) */
    method Approve(caller: Address, spender: Address, amount: Uint256) returns (r: Outcome)
      requires Valid()
      modifies this
      ensures Valid()
      ensures (r, Snapshot()) == Commit(old(Snapshot()), Ledger.Approve(old(Snapshot()), caller, spender, amount))
    {
      r := SetAllowance(caller, spender, amount);
    }

    /** increaseAllowance(spender, added) */
    method IncreaseAllowance(caller: Address, spender: Address, added: Uint256) returns (r: Outcome)
      requires Valid()
      requires Allowance(caller, spender) + added <= MAX_UINT256
      modifies this
      ensures Valid()
      ensures (r, Snapshot()) == Commit(old(Snapshot()), Ledger.IncreaseAllowance(old(Snapshot()), caller, spender, added))
    {
      r := SetAllowance(caller, spender, Allowance(caller, spender) + added);
    }

    /** decreaseAllowance(spender, subtracted) */
    method DecreaseAllowance(caller: Address, spender: Address, subtracted: Uint256) returns (r: Outcome)
      requires Valid()
      modifies this
      ensures Valid()
      ensures (r, Snapshot()) == Commit(old(Snapshot()), Ledger.DecreaseAllowance(old(Snapshot()), caller, spender, subtracted))
    {
      var current := Allowance(caller, spender);
      if current < subtracted { return Failure(DecreasedBelowZero); }
      r := SetAllowance(caller, spender, current - subtracted);
    }

    /** transferFrom(from, to, amount): the allowance is spent first; if the
        move then fails, the whole transaction reverts, spending included. */
    method TransferFrom(caller: Address, from: Address, to: Address, amount: Uint256) returns (r: Outcome)
      requires Valid()
      modifies this
      ensures Valid()
      ensures (r, Snapshot()) == Commit(old(Snapshot()), Ledger.TransferFrom(old(Snapshot()), caller, from, to, amount))
    {
      var saved := allowances;
      var current := Allowance(from, caller);
      if current < amount { return Failure(InsufficientAllowance); }
      r := SetAllowance(from, caller, current - amount);
      if r.Failure? { return; }
      r := Move(from, to, amount);
      if r.Failure? {
        allowances := saved;
      }
    }

    /** transferOwnership(newOwner), owner only. */
    method TransferOwnership(caller: Address, newOwner: Address) returns (r: Outcome)
      requires Valid()
      modifies this
      ensures Valid()
      ensures (r, Snapshot()) == Commit(old(Snapshot()), Ledger.TransferOwnership(old(Snapshot()), caller, newOwner))
    {
      if caller != owner { return Failure(Unauthorized); }
      if newOwner == ZERO { return Failure(NewOwnerIsZero); }
      owner := newOwner;
      r := Success;
    }

    /** renounceOwnership(), owner only. */
    method RenounceOwnership(caller: Address) returns (r: Outcome)
      requires Valid()
      modifies this
      ensures Valid()
      ensures (r, Snapshot()) == Commit(old(Snapshot()), Ledger.RenounceOwnership(old(Snapshot()), caller))
    {
      if caller != owner { return Failure(Unauthorized); }
      owner := ZERO;
      r := Success;
    }

    /** recoverERC20(address(this), to, amount), owner only: the ledger sends
        tokens out of its own account. */
    method RecoverERC20(caller: Address, to: Address, amount: Uint256) returns (r: Outcome)
      requires Valid()
      modifies this
      ensures Valid()
      ensures (r, Snapshot()) == Commit(old(Snapshot()), RecoverOwnTokens(old(Snapshot()), address, caller, to, amount))
    {
      if caller != owner { return Failure(Unauthorized); }
      r := Move(address, to, amount);
    }
  }
}

/** The Kenshi (KNS) token ledger as values: the state of the token, one
    transition function per entry point, and the properties those transitions
    keep. The class in module Token runs the same transitions in place; this
    module is its specification. */
module Ledger {

  /** Accounts are 20-byte EVM addresses; 0 is the reserved "no account". */
  const ADDRESS_SPACE: nat := 0x1_0000_0000_0000_0000_0000_0000_0000_0000_0000_0000
  type Address = a: nat | a < ADDRESS_SPACE
  const ZERO: Address := 0

  /** Amounts are Solidity uint256 values. */
  const MAX_UINT256: nat := 0x1_0000_0000_0000_0000_0000_0000_0000_0000_0000_0000_0000_0000_0000_0000_0000_0000 - 1
  type Uint256 = x: nat | x <= MAX_UINT256

  /** Token metadata, fixed at deployment. */
  const NAME: string := "Kenshi"
  const SYMBOL: string := "KNS"
  const DECIMALS: nat := 18

  /** One constructor per revert reason of the ledger. */
  datatype Error =
    | TransferFromZero        // "ERC20: transfer from the zero address"
    | TransferToZero          // "ERC20: transfer to the zero address"
    | TransferExceedsBalance  // "ERC20: transfer amount exceeds balance"
    | ApproveFromZero         // "ERC20: approve from the zero address"
    | ApproveToZero           // "ERC20: approve to the zero address"
    | DecreasedBelowZero      // "ERC20: decreased allowance below zero"
    | InsufficientAllowance   // "ERC20: insufficient allowance"
    | Unauthorized            // "Ownable: caller is not the owner"
    | NewOwnerIsZero          // "Ownable: new owner is the zero address"

  /** What a transaction reports to its caller: it returns, or it reverts. */
  datatype Outcome = Success | Failure(error: Error)

  /** A transition either yields the next state or reverts with an error. */
  datatype Result<T> = Ok(value: T) | Err(error: Error)

  /** The mutable part of the ledger: balances, allowances and the owner slot.
      Absent keys stand for zero. */
  datatype State = State(
    balances: map<Address, nat>,
    allowances: map<(Address, Address), Uint256>,
    owner: Address)

  function Get(m: map<Address, nat>, a: Address): (v: nat) {
    if a in m then m[a] else 0
  }

  /** balanceOf(account) */
  function BalanceOf(s: State, account: Address): (b: nat) {
    Get(s.balances, account)
  }

  /** allowance(owner, spender) */
  function Allowance(s: State, owner: Address, spender: Address): (a: Uint256) {
    if (owner, spender) in s.allowances then s.allowances[(owner, spender)] else 0
  }

  /** A reverted transaction leaves the state as it was; a successful one
      installs its new state. */
  function Commit(s: State, r: Result<State>): (committed: (Outcome, State)) {
    match r
    case Ok(t) => (Success, t)
    case Err(e) => (Failure(e), s)
  }

  // ---------------------------------------------------------------------------
  // Sum of all balances

  ghost function Pick(ks: set<Address>): (k: Address)
    requires ks != {}
    ensures k in ks
  {
    var k :| k in ks; k
  }

  /** The sum of m over the keys ks. */
  ghost function SumOver(m: map<Address, nat>, ks: set<Address>): nat
    requires ks <= m.Keys
    decreases ks
  {
    if ks == {} then 0 else
      var k := Pick(ks);
      m[k] + SumOver(m, ks - {k})
  }

  /** The sum of all balances recorded in m. */
  ghost function Sum(m: map<Address, nat>): nat {
    SumOver(m, m.Keys)
  }

  /** Any key of ks can be split off the sum, not only the one Pick chooses. */
  lemma {:induction false} SumOverRemove(m: map<Address, nat>, ks: set<Address>, k: Address)
    requires ks <= m.Keys && k in ks
    ensures SumOver(m, ks) == m[k] + SumOver(m, ks - {k})
    decreases ks
  {
    var j := Pick(ks);
    if j != k {
      SumOverRemove(m, ks - {j}, k);
      SumOverRemove(m, ks - {k}, j);
      assert ks - {j} - {k} == ks - {k} - {j};
    }
  }

  /** The sum over ks depends only on the values at ks. */
  lemma {:induction false} SumOverAgree(m: map<Address, nat>, n: map<Address, nat>, ks: set<Address>)
    requires ks <= m.Keys && ks <= n.Keys
    requires forall k :: k in ks ==> m[k] == n[k]
    ensures SumOver(m, ks) == SumOver(n, ks)
    decreases ks
  {
    if ks != {} {
      SumOverAgree(m, n, ks - {Pick(ks)});
    }
  }

  /** Setting one entry changes the sum by exactly the difference. */
  lemma SumUpdate(m: map<Address, nat>, k: Address, v: nat)
    ensures Sum(m[k := v]) + Get(m, k) == Sum(m) + v
  {
    var m' := m[k := v];
    if k in m {
      SumOverRemove(m, m.Keys, k);
      SumOverRemove(m', m'.Keys, k);
      assert m'.Keys - {k} == m.Keys - {k};
      SumOverAgree(m, m', m.Keys - {k});
    } else {
      SumOverRemove(m', m'.Keys, k);
      assert m'.Keys - {k} == m.Keys;
      SumOverAgree(m, m', m.Keys);
    }
  }

  /** No single balance exceeds the sum of all balances. */
  lemma EntryAtMostSum(m: map<Address, nat>, k: Address)
    ensures Get(m, k) <= Sum(m)
  {
    if k in m {
      SumOverRemove(m, m.Keys, k);
    }
  }

  // ---------------------------------------------------------------------------
  // The ledger invariant

  /** What holds of every reachable state of a ledger deployed with `supply`:
      the balances add up to the supply, the zero account holds nothing, no
      allowance is granted by the zero account. */
  ghost predicate Valid(s: State, supply: nat) {
    && supply <= MAX_UINT256
    && Sum(s.balances) == supply
    && BalanceOf(s, ZERO) == 0
    && forall p :: p in s.allowances ==> p.0 != ZERO
  }

  /** No balance is ever above the total supply, hence none overflows uint256. */
  lemma BalanceAtMostSupply(s: State, supply: nat, account: Address)
    ensures Valid(s, supply) ==> BalanceOf(s, account) <= supply <= MAX_UINT256
  {
    EntryAtMostSum(s.balances, account);
  }

  /** The zero account never holds an allowance over anyone's tokens. */
  lemma NoAllowanceFromZero(s: State, supply: nat, spender: Address)
    requires Valid(s, supply)
    ensures Allowance(s, ZERO, spender) == 0
  {
  }

  // ---------------------------------------------------------------------------
  // Construction

  /** The state right after deployment: the deployer holds the whole supply
      and owns the ledger; there are no allowances. */
  function Initial(deployer: Address, supply: Uint256): (s: State) {
    State(map[deployer := supply], map[], deployer)
  }

  lemma InitialState(deployer: Address, supply: Uint256)
    requires deployer != ZERO
    ensures var s := Initial(deployer, supply);
      && Valid(s, supply)
      && s.owner == deployer
      && BalanceOf(s, deployer) == supply
      && (forall a: Address :: a != deployer ==> BalanceOf(s, a) == 0)
      && (forall o: Address, sp: Address :: Allowance(s, o, sp) == 0)
  {
    var m := map[deployer := supply];
    SumOverRemove(m, m.Keys, deployer);
    assert m.Keys - {deployer} == {};
  }

  // ---------------------------------------------------------------------------
  // Transfers

  /** The internal balance move behind transfer, transferFrom and the
      self-token recovery: both ends must be live accounts and the source
      must hold at least `amount`. */
  function Transfer(s: State, from: Address, to: Address, amount: Uint256): (r: Result<State>) {
    if from == ZERO then Err(TransferFromZero)
    else if to == ZERO then Err(TransferToZero)
    else if BalanceOf(s, from) < amount then Err(TransferExceedsBalance)
    else
      var debited := s.balances[from := BalanceOf(s, from) - amount];
      Ok(s.(balances := debited[to := Get(debited, to) + amount]))
  }

  /** When a transfer succeeds, and the exact effect it then has. */
  lemma TransferSpec(s: State, from: Address, to: Address, amount: Uint256)
    ensures var r := Transfer(s, from, to, amount);
      && (from == ZERO <==> r == Err(TransferFromZero))
      && (from != ZERO && to == ZERO <==> r == Err(TransferToZero))
      && (from != ZERO && to != ZERO && amount > BalanceOf(s, from) <==> r == Err(TransferExceedsBalance))
      && (r.Ok? <==> from != ZERO && to != ZERO && amount <= BalanceOf(s, from))
      && (r.Ok? ==>
            && (from != to ==> BalanceOf(r.value, from) == BalanceOf(s, from) - amount)
            && (from != to ==> BalanceOf(r.value, to) == BalanceOf(s, to) + amount)
            && (from == to ==> BalanceOf(r.value, from) == BalanceOf(s, from))
            && (forall a: Address :: a != from && a != to ==> BalanceOf(r.value, a) == BalanceOf(s, a))
            && r.value.allowances == s.allowances
            && r.value.owner == s.owner)
  {
  }

  /** A transfer keeps the ledger invariant; in particular the balances still
      add up to the total supply. */
  lemma TransferPreservesValid(s: State, supply: nat, from: Address, to: Address, amount: Uint256)
    requires Valid(s, supply)
    ensures Transfer(s, from, to, amount).Ok? ==> Valid(Transfer(s, from, to, amount).value, supply)
  {
    if Transfer(s, from, to, amount).Ok? {
      var b := s.balances;
      var debited := b[from := Get(b, from) - amount];
      SumUpdate(b, from, Get(b, from) - amount);
      SumUpdate(debited, to, Get(debited, to) + amount);
    }
  }

  // ---------------------------------------------------------------------------
  // Allowances

  /** The internal allowance write behind approve and its extensions:
      it overwrites, it does not add. */
  function Approve(s: State, owner: Address, spender: Address, amount: Uint256): (r: Result<State>) {
    if owner == ZERO then Err(ApproveFromZero)
    else if spender == ZERO then Err(ApproveToZero)
    else Ok(s.(allowances := s.allowances[(owner, spender) := amount]))
  }

  lemma ApproveSpec(s: State, owner: Address, spender: Address, amount: Uint256)
    ensures var r := Approve(s, owner, spender, amount);
      && (owner == ZERO <==> r == Err(ApproveFromZero))
      && (owner != ZERO && spender == ZERO <==> r == Err(ApproveToZero))
      && (r.Ok? <==> owner != ZERO && spender != ZERO)
      && (r.Ok? ==>
            && Allowance(r.value, owner, spender) == amount
            && (forall o: Address, sp: Address :: (o, sp) != (owner, spender) ==> Allowance(r.value, o, sp) == Allowance(s, o, sp))
            && r.value.balances == s.balances
            && r.value.owner == s.owner)
  {
  }

  lemma ApprovePreservesValid(s: State, supply: nat, owner: Address, spender: Address, amount: Uint256)
    requires Valid(s, supply)
    ensures Approve(s, owner, spender, amount).Ok? ==> Valid(Approve(s, owner, spender, amount).value, supply)
  {
  }

  /** increaseAllowance(spender, delta) called by `caller`. The sum must fit
      in a uint256 (Solidity's checked addition would otherwise abort). */
  function IncreaseAllowance(s: State, caller: Address, spender: Address, delta: Uint256): (r: Result<State>)
    requires Allowance(s, caller, spender) + delta <= MAX_UINT256
  {
    Approve(s, caller, spender, Allowance(s, caller, spender) + delta)
  }

  lemma IncreaseAllowanceSpec(s: State, caller: Address, spender: Address, delta: Uint256)
    requires Allowance(s, caller, spender) + delta <= MAX_UINT256
    ensures var r := IncreaseAllowance(s, caller, spender, delta);
      && (caller == ZERO <==> r == Err(ApproveFromZero))
      && (caller != ZERO && spender == ZERO <==> r == Err(ApproveToZero))
      && (r.Ok? <==> caller != ZERO && spender != ZERO)
      && (r.Ok? ==>
            && Allowance(r.value, caller, spender) == Allowance(s, caller, spender) + delta
            && (forall o: Address, sp: Address :: (o, sp) != (caller, spender) ==> Allowance(r.value, o, sp) == Allowance(s, o, sp))
            && r.value.balances == s.balances
            && r.value.owner == s.owner)
  {
    ApproveSpec(s, caller, spender, Allowance(s, caller, spender) + delta);
  }

  /** decreaseAllowance(spender, delta) called by `caller`: the underflow
      check comes first, the zero-address checks of approve after it. */
  function DecreaseAllowance(s: State, caller: Address, spender: Address, delta: Uint256): (r: Result<State>) {
    var current := Allowance(s, caller, spender);
    if current < delta then Err(DecreasedBelowZero)
    else Approve(s, caller, spender, current - delta)
  }

  lemma DecreaseAllowanceSpec(s: State, caller: Address, spender: Address, delta: Uint256)
    ensures var r := DecreaseAllowance(s, caller, spender, delta);
      && (delta > Allowance(s, caller, spender) <==> r == Err(DecreasedBelowZero))
      && (delta <= Allowance(s, caller, spender) && caller == ZERO <==> r == Err(ApproveFromZero))
      && (delta <= Allowance(s, caller, spender) && caller != ZERO && spender == ZERO <==> r == Err(ApproveToZero))
      && (r.Ok? <==> delta <= Allowance(s, caller, spender) && caller != ZERO && spender != ZERO)
      && (r.Ok? ==>
            && Allowance(r.value, caller, spender) == Allowance(s, caller, spender) - delta
            && (forall o: Address, sp: Address :: (o, sp) != (caller, spender) ==> Allowance(r.value, o, sp) == Allowance(s, o, sp))
            && r.value.balances == s.balances
            && r.value.owner == s.owner)
  {
    if delta <= Allowance(s, caller, spender) {
      ApproveSpec(s, caller, spender, Allowance(s, caller, spender) - delta);
    }
  }

  /** approve(X), then increaseAllowance(Y), then decreaseAllowance(Y) leaves
      the ledger exactly as approve(X) left it. */
  lemma AllowanceRoundTrip(s: State, caller: Address, spender: Address, x: Uint256, y: Uint256)
    requires caller != ZERO && spender != ZERO && x + y <= MAX_UINT256
    ensures var s1 := Approve(s, caller, spender, x).value;
      && Allowance(s1, caller, spender) == x
      && IncreaseAllowance(s1, caller, spender, y).Ok?
      && Allowance(IncreaseAllowance(s1, caller, spender, y).value, caller, spender) == x + y
      && DecreaseAllowance(IncreaseAllowance(s1, caller, spender, y).value, caller, spender, y) == Ok(s1)
  {
    var s1 := Approve(s, caller, spender, x).value;
    var s2 := IncreaseAllowance(s1, caller, spender, y).value;
    assert s1.allowances[(caller, spender) := x + y][(caller, spender) := x] == s1.allowances;
  }

  lemma IncreaseAllowancePreservesValid(s: State, supply: nat, caller: Address, spender: Address, delta: Uint256)
    requires Valid(s, supply)
    requires Allowance(s, caller, spender) + delta <= MAX_UINT256
    ensures IncreaseAllowance(s, caller, spender, delta).Ok? ==> Valid(IncreaseAllowance(s, caller, spender, delta).value, supply)
  {
  }

  lemma DecreaseAllowancePreservesValid(s: State, supply: nat, caller: Address, spender: Address, delta: Uint256)
    requires Valid(s, supply)
    ensures DecreaseAllowance(s, caller, spender, delta).Ok? ==> Valid(DecreaseAllowance(s, caller, spender, delta).value, supply)
  {
  }

  // ---------------------------------------------------------------------------
  // Delegated transfers

  /** Consumes `amount` of the allowance `owner` granted `spender`, writing
      the remainder back through approve. */
  function SpendAllowance(s: State, owner: Address, spender: Address, amount: Uint256): (r: Result<State>) {
    var current := Allowance(s, owner, spender);
    if current < amount then Err(InsufficientAllowance)
    else Approve(s, owner, spender, current - amount)
  }

  /** transferFrom(from, to, amount) called by `caller`: spend the caller's
      allowance from `from`, then move the tokens. A failure of the move
      reverts the spending too. */
  function TransferFrom(s: State, caller: Address, from: Address, to: Address, amount: Uint256): (r: Result<State>) {
    match SpendAllowance(s, from, caller, amount)
    case Err(e) => Err(e)
    case Ok(s1) => Transfer(s1, from, to, amount)
  }

  /** The order of the checks of transferFrom and its effect on success. */
  lemma TransferFromSpec(s: State, caller: Address, from: Address, to: Address, amount: Uint256)
    ensures var r := TransferFrom(s, caller, from, to, amount);
      var allowed := Allowance(s, from, caller);
      && (amount > allowed <==> r == Err(InsufficientAllowance))
      && (amount <= allowed && from == ZERO <==> r == Err(ApproveFromZero))
      && (amount <= allowed && from != ZERO && caller == ZERO <==> r == Err(ApproveToZero))
      && (amount <= allowed && from != ZERO && caller != ZERO && to == ZERO <==> r == Err(TransferToZero))
      && (var moving := amount <= allowed && from != ZERO && caller != ZERO && to != ZERO;
          moving && amount > BalanceOf(s, from) <==> r == Err(TransferExceedsBalance))
      && (r.Ok? <==> amount <= allowed && from != ZERO && caller != ZERO && to != ZERO && amount <= BalanceOf(s, from))
      && (r.Ok? ==>
            && Allowance(r.value, from, caller) == allowed - amount
            && (forall o: Address, sp: Address :: (o, sp) != (from, caller) ==> Allowance(r.value, o, sp) == Allowance(s, o, sp))
            && (from != to ==> BalanceOf(r.value, from) == BalanceOf(s, from) - amount)
            && (from != to ==> BalanceOf(r.value, to) == BalanceOf(s, to) + amount)
            && (from == to ==> BalanceOf(r.value, from) == BalanceOf(s, from))
            && (forall a: Address :: a != from && a != to ==> BalanceOf(r.value, a) == BalanceOf(s, a))
            && r.value.owner == s.owner)
  {
    var allowed := Allowance(s, from, caller);
    if amount <= allowed {
      ApproveSpec(s, from, caller, allowed - amount);
      if from != ZERO && caller != ZERO {
        TransferSpec(SpendAllowance(s, from, caller, amount).value, from, to, amount);
      }
    }
  }

  /** With the zero account as source, transferFrom always reverts: with
      "approve from the zero address" for a zero amount, and with
      "insufficient allowance" otherwise, since no allowance from the zero
      account can exist. */
  lemma TransferFromZeroSource(s: State, supply: nat, caller: Address, to: Address, amount: Uint256)
    requires Valid(s, supply)
    ensures amount == 0 ==> TransferFrom(s, caller, ZERO, to, amount) == Err(ApproveFromZero)
    ensures amount > 0 ==> TransferFrom(s, caller, ZERO, to, amount) == Err(InsufficientAllowance)
  {
    NoAllowanceFromZero(s, supply, caller);
  }

  lemma TransferFromPreservesValid(s: State, supply: nat, caller: Address, from: Address, to: Address, amount: Uint256)
    requires Valid(s, supply)
    ensures TransferFrom(s, caller, from, to, amount).Ok? ==> Valid(TransferFrom(s, caller, from, to, amount).value, supply)
  {
    var spent := SpendAllowance(s, from, caller, amount);
    if spent.Ok? {
      ApprovePreservesValid(s, supply, from, caller, Allowance(s, from, caller) - amount);
      TransferPreservesValid(spent.value, supply, from, to, amount);
    }
  }

  // ---------------------------------------------------------------------------
  // Ownership

  /** transferOwnership(newOwner) called by `caller`. */
  function TransferOwnership(s: State, caller: Address, newOwner: Address): (r: Result<State>) {
    if caller != s.owner then Err(Unauthorized)
    else if newOwner == ZERO then Err(NewOwnerIsZero)
    else Ok(s.(owner := newOwner))
  }

  /** renounceOwnership() called by `caller`. */
  function RenounceOwnership(s: State, caller: Address): (r: Result<State>) {
    if caller != s.owner then Err(Unauthorized)
    else Ok(s.(owner := ZERO))
  }

  /** recoverERC20(token, to, amount) called by `caller`, for the case where
      `token` is this ledger itself, deployed at `home`: the ledger moves
      tokens out of its own account. */
  function RecoverOwnTokens(s: State, home: Address, caller: Address, to: Address, amount: Uint256): (r: Result<State>) {
    if caller != s.owner then Err(Unauthorized)
    else Transfer(s, home, to, amount)
  }

  lemma OwnershipSpec(s: State, caller: Address, newOwner: Address)
    ensures var r := TransferOwnership(s, caller, newOwner);
      && (caller != s.owner <==> r == Err(Unauthorized))
      && (caller == s.owner && newOwner == ZERO <==> r == Err(NewOwnerIsZero))
      && (r.Ok? <==> caller == s.owner && newOwner != ZERO)
      && (r.Ok? ==> r.value == s.(owner := newOwner) && r.value.owner == newOwner != ZERO)
    ensures var r := RenounceOwnership(s, caller);
      && (caller != s.owner <==> r == Err(Unauthorized))
      && (r.Ok? <==> caller == s.owner)
      && (r.Ok? ==> r.value == s.(owner := ZERO))
  {
  }

  /** Once ownership is renounced, no live account can administer the ledger
      again. */
  lemma RenouncedIsFinal(s: State, home: Address, caller: Address, newOwner: Address, to: Address, amount: Uint256)
    requires s.owner == ZERO && caller != ZERO
    ensures TransferOwnership(s, caller, newOwner) == Err(Unauthorized)
    ensures RenounceOwnership(s, caller) == Err(Unauthorized)
    ensures RecoverOwnTokens(s, home, caller, to, amount) == Err(Unauthorized)
  {
  }

  lemma OwnershipPreservesValid(s: State, supply: nat, caller: Address, newOwner: Address)
    requires Valid(s, supply)
    ensures TransferOwnership(s, caller, newOwner).Ok? ==> Valid(TransferOwnership(s, caller, newOwner).value, supply)
    ensures RenounceOwnership(s, caller).Ok? ==> Valid(RenounceOwnership(s, caller).value, supply)
  {
  }

  /** The owner recovers tokens held at the ledger's own address: they leave
      that account and reach `to`, exactly `amount` of them. */
  lemma RecoverOwnTokensSpec(s: State, home: Address, caller: Address, to: Address, amount: Uint256)
    requires home != ZERO
    ensures var r := RecoverOwnTokens(s, home, caller, to, amount);
      && (caller != s.owner <==> r == Err(Unauthorized))
      && (caller == s.owner ==> r == Transfer(s, home, to, amount))
      && (caller == s.owner && to == ZERO <==> r == Err(TransferToZero))
      && (caller == s.owner && to != ZERO && amount > BalanceOf(s, home) <==> r == Err(TransferExceedsBalance))
      && (r.Ok? <==> caller == s.owner && to != ZERO && amount <= BalanceOf(s, home))
      && (r.Ok? && to != home ==>
            && BalanceOf(r.value, home) == BalanceOf(s, home) - amount
            && BalanceOf(r.value, to) == BalanceOf(s, to) + amount)
  {
    TransferSpec(s, home, to, amount);
  }

  lemma RecoverOwnTokensPreservesValid(s: State, supply: nat, home: Address, caller: Address, to: Address, amount: Uint256)
    requires Valid(s, supply)
    ensures RecoverOwnTokens(s, home, caller, to, amount).Ok? ==> Valid(RecoverOwnTokens(s, home, caller, to, amount).value, supply)
  {
    TransferPreservesValid(s, supply, home, to, amount);
  }
}

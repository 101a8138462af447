/** The behaviours the Kenshi test suite checks, replayed against the ledger
    class: each method deploys a fresh ledger with a supply of 10^27, sends
    the transactions of one test case and returns what the test inspects. */
module KenshiTest {
  import opened Ledger
  import opened Token

  const SUPPLY: Uint256 := 1_000_000_000_000_000_000_000_000_000

  /** Distinct live accounts: the deployer, two further signers and the
      ledger's own address. */
  predicate Accounts(deployer: Address, addr1: Address, addr2: Address, home: Address) {
    && deployer != ZERO && addr1 != ZERO && addr2 != ZERO && home != ZERO
    && deployer != addr1 && deployer != addr2 && deployer != home
    && addr1 != addr2 && addr1 != home && addr2 != home
  }

  /** Distinct live accounts: the deployer, one further signer and the
      ledger's own address. */
  predicate Distinct(deployer: Address, addr1: Address, home: Address) {
    && deployer != ZERO && addr1 != ZERO && home != ZERO
    && deployer != addr1 && deployer != home && addr1 != home
  }

  /** Sending 2 after receiving 1 reverts; the sender still holds 1. */
  method TransferMoreThanOwned(deployer: Address, addr1: Address, addr2: Address, home: Address)
    returns (first: Outcome, second: Outcome, held: nat, received: nat)
    requires Accounts(deployer, addr1, addr2, home)
    ensures first == Success
    ensures second == Failure(TransferExceedsBalance)
    ensures held == 1 && received == 0
  {
    var kns := new Kenshi(deployer, home, SUPPLY);
    first := kns.Transfer(deployer, addr1, 1);
    second := kns.Transfer(addr1, addr2, 2);
    held := kns.BalanceOf(addr1);
    received := kns.BalanceOf(addr2);
  }

  /** Sending to the zero address reverts and the sender keeps everything. */
  method TransferToZeroAddress(deployer: Address, home: Address)
    returns (r: Outcome, held: nat, atZero: nat)
    requires deployer != ZERO && home != ZERO && deployer != home
    ensures r == Failure(TransferToZero)
    ensures held == SUPPLY && atZero == 0
  {
    var kns := new Kenshi(deployer, home, SUPPLY);
    r := kns.Transfer(deployer, ZERO, 1);
    held := kns.BalanceOf(deployer);
    atZero := kns.BalanceOf(ZERO);
  }

  /** transferFrom with the zero address as source and amount 0 reverts
      inside approve. */
  method TransferFromZeroAddress(deployer: Address, home: Address)
    returns (r: Outcome, held: nat)
    requires deployer != ZERO && home != ZERO && deployer != home
    ensures r == Failure(ApproveFromZero)
    ensures held == SUPPLY
  {
    var kns := new Kenshi(deployer, home, SUPPLY);
    r := kns.TransferFrom(deployer, ZERO, deployer, 0);
    held := kns.BalanceOf(deployer);
  }

  /** Approving the zero address reverts and grants nothing. */
  method ApproveZeroAddress(deployer: Address, home: Address)
    returns (r: Outcome, granted: Uint256)
    requires deployer != ZERO && home != ZERO && deployer != home
    ensures r == Failure(ApproveToZero)
    ensures granted == 0
  {
    var kns := new Kenshi(deployer, home, SUPPLY);
    r := kns.Approve(deployer, ZERO, 1);
    granted := kns.Allowance(deployer, ZERO);
  }

  /** Decreasing a zero allowance by 1 reverts; the allowance stays 0. */
  method DecreaseAllowanceUnderflow(deployer: Address, addr1: Address, home: Address)
    returns (r: Outcome, granted: Uint256)
    requires Distinct(deployer, addr1, home)
    ensures r == Failure(DecreasedBelowZero)
    ensures granted == 0
  {
    var kns := new Kenshi(deployer, home, SUPPLY);
    r := kns.DecreaseAllowance(deployer, addr1, 1);
    granted := kns.Allowance(deployer, addr1);
  }

  /** After receiving 100, the recipient's balance reads 100. */
  method BalancesReported(deployer: Address, addr1: Address, home: Address)
    returns (r: Outcome, received: nat, held: nat)
    requires Distinct(deployer, addr1, home)
    ensures r == Success
    ensures received == 100 && held == SUPPLY - 100
  {
    var kns := new Kenshi(deployer, home, SUPPLY);
    r := kns.Transfer(deployer, addr1, 100);
    received := kns.BalanceOf(addr1);
    held := kns.BalanceOf(deployer);
  }

  /** Owner, decimals, symbol, name and supply right after deployment. */
  method BaseInfo(deployer: Address, home: Address)
    returns (admin: Address, scale: nat, ticker: string, title: string, supply: nat, held: nat)
    requires deployer != ZERO && home != ZERO && deployer != home
    ensures admin == deployer
    ensures scale == 18 && ticker == "KNS" && title == "Kenshi"
    ensures supply == 1_000_000_000_000_000_000_000_000_000
    ensures held == supply
  {
    var kns := new Kenshi(deployer, home, SUPPLY);
    admin := kns.owner;
    scale := kns.decimals;
    ticker := kns.symbol;
    title := kns.name;
    supply := kns.totalSupply;
    held := kns.BalanceOf(deployer);
  }

  /** The owner hands the ledger to addr1, who then renounces it. */
  method OwnershipTransfer(deployer: Address, addr1: Address, home: Address)
    returns (handOver: Outcome, afterHandOver: Address, renounce: Outcome, afterRenounce: Address)
    requires Distinct(deployer, addr1, home)
    ensures handOver == Success && afterHandOver == addr1
    ensures renounce == Success && afterRenounce == ZERO
  {
    var kns := new Kenshi(deployer, home, SUPPLY);
    handOver := kns.TransferOwnership(deployer, addr1);
    afterHandOver := kns.owner;
    renounce := kns.RenounceOwnership(addr1);
    afterRenounce := kns.owner;
  }

  /** transferFrom without any allowance reverts and moves nothing. */
  method TransferFromWithoutAllowance(deployer: Address, addr1: Address, home: Address)
    returns (r: Outcome, received: nat, held: nat)
    requires Distinct(deployer, addr1, home)
    ensures r == Failure(InsufficientAllowance)
    ensures received == 0 && held == SUPPLY
  {
    var kns := new Kenshi(deployer, home, SUPPLY);
    r := kns.TransferFrom(addr1, deployer, addr1, 1);
    received := kns.BalanceOf(addr1);
    held := kns.BalanceOf(deployer);
  }

  /** approve overwrites, increaseAllowance adds, decreaseAllowance
      subtracts. */
  method ApprovalAndAllowance(deployer: Address, addr1: Address, home: Address)
    returns (afterApprove: Uint256, afterIncrease: Uint256, afterDecrease: Uint256)
    requires Distinct(deployer, addr1, home)
    ensures afterApprove == 100000000000
    ensures afterIncrease == 200000000000
    ensures afterDecrease == 100000000000
  {
    var kns := new Kenshi(deployer, home, SUPPLY);
    var r := kns.Approve(deployer, addr1, 100000000000);
    afterApprove := kns.Allowance(deployer, addr1);
    r := kns.IncreaseAllowance(deployer, addr1, 100000000000);
    afterIncrease := kns.Allowance(deployer, addr1);
    r := kns.DecreaseAllowance(deployer, addr1, 100000000000);
    afterDecrease := kns.Allowance(deployer, addr1);
  }

  /** With an allowance of 100000000000, the spender can pull 1 token. */
  method TransferFromWithAllowance(deployer: Address, addr1: Address, home: Address)
    returns (r: Outcome, remaining: Uint256, received: nat)
    requires Distinct(deployer, addr1, home)
    ensures r == Success
    ensures remaining == 100000000000 - 1 && received == 1
  {
    var kns := new Kenshi(deployer, home, SUPPLY);
    var approved := kns.Approve(deployer, addr1, 100000000000);
    r := kns.TransferFrom(addr1, deployer, addr1, 1);
    remaining := kns.Allowance(deployer, addr1);
    received := kns.BalanceOf(addr1);
  }

  /** Tokens sent to the ledger's own address are recovered by the owner. */
  method RecoverTokens(deployer: Address, addr1: Address, home: Address)
    returns (sent: Outcome, recovered: Outcome, received: nat, left: nat)
    requires Distinct(deployer, addr1, home)
    ensures sent == Success && recovered == Success
    ensures received == 100000000000 && left == 0
  {
    var kns := new Kenshi(deployer, home, SUPPLY);
    sent := kns.Transfer(deployer, home, 100000000000);
    recovered := kns.RecoverERC20(deployer, addr1, 100000000000);
    received := kns.BalanceOf(addr1);
    left := kns.BalanceOf(home);
  }
}

/**
 * The RewardContract sandbox test suite, restated as verified methods over the
 * model, one per test case. The tests fix the reward but not the account's reserve; together they only
 * hold for a reserve between 0.06 and 0.14 TON, which `RewardSuiteReserve` states.
 */
module RewardTreasuryScenarios {
  import opened Ledger
  import opened RewardTreasury

  const GasValue: nat := 10_000_000

  /**
   * A fresh account holds the 0.05 TON of its `Deploy`: a claim or a withdrawal
   * carrying 0.01 TON more must still fail, while a 0.1 TON claim must be paid.
   */
  predicate RewardSuiteReserve(reserve: nat)
  {
    60_000_000 <= reserve <= 140_000_000
  }

  /** `beforeEach`: `fromInit(deployer)` followed by a `Deploy` carrying 0.05 TON, which must succeed. */
  method DeployedRewardContract(deployer: Address, reserve: nat) returns (c: RewardContract)
    ensures fresh(c) && c.Valid()
    ensures c.deployed && c.owner == deployer && c.reserve == reserve
    ensures c.balance == DeployValue && c.transfers == []
  {
    c := new RewardContract.FromInit(deployer, reserve);
    var ok := c.ReceiveDeploy(Context(deployer, DeployValue), 0);
  }

  /** "should deploy successfully": the `Deploy` from the deployer is accepted and deploys the account. */
  method DeploysSuccessfully(deployer: Address, reserve: nat) returns (ok: bool, deployed: bool, balance: nat)
    ensures ok && deployed && balance == DeployValue
  {
    var c := new RewardContract.FromInit(deployer, reserve);
    ok := c.ReceiveDeploy(Context(deployer, DeployValue), 0);
    deployed := c.deployed;
    balance := c.balance;
  }

  /** "should initialize with correct owner and reward amount". */
  method InitializesOwnerAndReward(deployer: Address, reserve: nat) returns (owner: Address, reward: nat)
    ensures owner == deployer && reward == 10_000_000
  {
    var c := DeployedRewardContract(deployer, reserve);
    owner := c.GetOwner();
    reward := c.GetRewardAmount();
  }

  /** "should allow users to deposit TON": a `ClaimReward` carrying 1.0 TON is accepted. */
  method AcceptsDeposit(deployer: Address, user1: Address, reserve: nat) returns (ok: bool, balance: nat)
    requires RewardSuiteReserve(reserve)
    ensures ok && balance == DeployValue + NanoPerTon - RewardAmount
  {
    var c := DeployedRewardContract(deployer, reserve);
    ok := c.ReceiveClaimReward(Context(user1, NanoPerTon));
    balance := c.balance;
  }

  /**
   * "should allow users to claim reward when sufficient funds are available": after a
   * 0.1 TON deposit, a claim by another user pays exactly the reward to that user.
   */
  method ClaimsRewardWhenFunded(deployer: Address, user1: Address, user2: Address, reserve: nat)
    returns (ok: bool, balanceBefore: nat, balanceAfter: nat, payment: Transfer)
    requires RewardSuiteReserve(reserve)
    ensures ok
    ensures payment == Transfer(user2, RewardAmount)
    ensures balanceAfter == balanceBefore + GasValue - RewardAmount
  {
    var c := DeployedRewardContract(deployer, reserve);
    var deposited := c.ReceiveClaimReward(Context(user1, 100_000_000));
    balanceBefore := c.balance;
    ok := c.ReceiveClaimReward(Context(user2, GasValue));
    balanceAfter := c.balance;
    payment := c.transfers[|c.transfers| - 1];
  }

  /** "should reject claim reward when insufficient funds": on a fresh account the claim fails and nothing moves. */
  method RejectsClaimWhenUnfunded(deployer: Address, user1: Address, reserve: nat)
    returns (ok: bool, balance: nat, transfers: seq<Transfer>)
    requires RewardSuiteReserve(reserve)
    ensures !ok && balance == DeployValue && transfers == []
  {
    var c := DeployedRewardContract(deployer, reserve);
    ok := c.ReceiveClaimReward(Context(user1, GasValue));
    balance := c.balance;
    transfers := c.transfers;
  }

  /** "should allow owner to withdraw all funds": after a 1.0 TON deposit the owner sweeps everything above the reserve. */
  method OwnerWithdrawsAll(deployer: Address, user1: Address, reserve: nat)
    returns (ok: bool, payment: Transfer, remaining: nat)
    requires RewardSuiteReserve(reserve)
    ensures ok
    ensures payment.to == deployer && payment.amount == DeployValue + NanoPerTon - RewardAmount + GasValue - reserve
    ensures remaining == reserve
  {
    var c := DeployedRewardContract(deployer, reserve);
    var deposited := c.ReceiveClaimReward(Context(user1, NanoPerTon));
    ok := c.ReceiveWithdrawAll(Context(deployer, GasValue));
    payment := c.transfers[|c.transfers| - 1];
    remaining := c.balance;
  }

  /** "should reject withdraw all from non-owner": a funded account refuses, and its balance is untouched. */
  method RejectsWithdrawFromNonOwner(deployer: Address, user1: Address, reserve: nat)
    returns (ok: bool, balanceBefore: nat, balanceAfter: nat)
    requires user1 != deployer
    requires RewardSuiteReserve(reserve)
    ensures !ok && balanceAfter == balanceBefore
  {
    var c := DeployedRewardContract(deployer, reserve);
    var deposited := c.ReceiveClaimReward(Context(user1, NanoPerTon));
    balanceBefore := c.balance;
    ok := c.ReceiveWithdrawAll(Context(user1, GasValue));
    balanceAfter := c.balance;
  }

  /**
   * "should handle multiple deposits and claims": the suite asserts nothing here; the
   * model predicts that all four claims are paid.
   */
  method HandlesMultipleDepositsAndClaims(deployer: Address, user1: Address, user2: Address, reserve: nat)
    returns (oks: seq<bool>, transfers: seq<Transfer>)
    requires RewardSuiteReserve(reserve)
    ensures oks == [true, true, true, true]
    ensures transfers == [Transfer(user1, RewardAmount), Transfer(user2, RewardAmount),
                          Transfer(user1, RewardAmount), Transfer(user2, RewardAmount)]
  {
    var c := DeployedRewardContract(deployer, reserve);
    var ok1 := c.ReceiveClaimReward(Context(user1, 100_000_000));
    var ok2 := c.ReceiveClaimReward(Context(user2, 200_000_000));
    var ok3 := c.ReceiveClaimReward(Context(user1, GasValue));
    var ok4 := c.ReceiveClaimReward(Context(user2, GasValue));
    oks := [ok1, ok2, ok3, ok4];
    transfers := c.transfers;
  }

  /** "should reject withdraw when no funds available": the owner's withdrawal from a fresh account fails. */
  method RejectsWithdrawWithoutFunds(deployer: Address, reserve: nat)
    returns (ok: bool, balance: nat, transfers: seq<Transfer>)
    requires RewardSuiteReserve(reserve)
    ensures !ok && balance == DeployValue && transfers == []
  {
    var c := DeployedRewardContract(deployer, reserve);
    ok := c.ReceiveWithdrawAll(Context(deployer, GasValue));
    balance := c.balance;
    transfers := c.transfers;
  }
}

/**
 * The RewardContract account program as its sandbox tests pin it down: a pooled
 * treasury that keeps every accepted message's value, pays a fixed reward to any
 * claimant while it can afford to, and lets its owner sweep what is left.
 */
module RewardTreasury {
  import opened Ledger

  /** The fixed reward: 0.01 TON. */
  const RewardAmount: nat := 10_000_000

  class RewardContract {
    const owner: Address
    const rewardAmount: nat
    /** Balance the account keeps for its own storage and processing; never paid out. */
    const reserve: nat

    var deployed: bool
    var balance: nat
    /** Every transfer the account has issued, oldest first. */
    var transfers: seq<Transfer>
    /** Total value carried in by every accepted message. */
    ghost var received: nat

    /** The reward is the fixed constant, and value is conserved between balance and transfers. */
    ghost predicate Valid()
      reads this
    {
      && rewardAmount == RewardAmount
      && balance + SumAmounts(transfers) == received
    }

    /** What the account could pay out while handling a message carrying `value`, above its reserve. */
    function Disposable(value: nat): int
      reads this
    {
      balance + value - reserve
    }

    /** `RewardContract.fromInit(owner)`: owner from the argument, reward fixed at 0.01 TON. */
    constructor FromInit(owner: Address, reserve: nat)
      ensures Valid()
      ensures this.owner == owner && this.reserve == reserve
      ensures !deployed && balance == 0 && transfers == []
    {
      this.owner := owner;
      this.rewardAmount := RewardAmount;
      this.reserve := reserve;
      deployed := false;
      balance := 0;
      transfers := [];
      received := 0;
    }

    /** The `Deploy` message: always accepted; its attached value stays in the account. */
    method ReceiveDeploy(ctx: Context, queryId: nat) returns (ok: bool)
      requires Valid()
      modifies this
      ensures Valid()
      ensures ok && deployed
      ensures balance == old(balance) + ctx.value && transfers == old(transfers)
    {
      deployed := true;
      balance := balance + ctx.value;
      received := received + ctx.value;
      ok := true;
    }

    /**
     * `ClaimReward`: the attached value is deposited first; if the account can then
     * pay `rewardAmount` above its reserve, it pays exactly that to the sender and
     * keeps the rest. Otherwise the message fails and the deposit is rolled back.
     */
    method ReceiveClaimReward(ctx: Context) returns (ok: bool)
      requires Valid()
      modifies this
      ensures Valid()
      ensures ok <==> old(Disposable(ctx.value)) >= rewardAmount
      ensures ok ==> && deployed
                     && transfers == old(transfers) + [Transfer(ctx.from, rewardAmount)]
                     && balance == old(balance) + ctx.value - rewardAmount
                     && balance >= reserve
      ensures !ok ==> unchanged(this)
    {
      if balance + ctx.value - reserve < rewardAmount {
        return false;
      }
      SentToAppend(transfers, Transfer(ctx.from, rewardAmount), ctx.from);
      deployed := true;
      received := received + ctx.value;
      balance := balance + ctx.value - rewardAmount;
      transfers := transfers + [Transfer(ctx.from, rewardAmount)];
      ok := true;
    }

    /**
     * `WithdrawAll`: only the owner may call it, and the owner check comes first.
     * With something to pay out, everything above the reserve goes to the owner;
     * with nothing, the message fails. A failure changes nothing.
     */
    method ReceiveWithdrawAll(ctx: Context) returns (ok: bool)
      requires Valid()
      modifies this
      ensures Valid()
      ensures ok <==> ctx.from == owner && old(Disposable(ctx.value)) > 0
      ensures ok ==> && deployed
                     && transfers == old(transfers) + [Transfer(owner, old(Disposable(ctx.value)))]
                     && balance == reserve
      ensures !ok ==> unchanged(this)
    {
      if ctx.from != owner {
        return false;
      }
      if balance + ctx.value <= reserve {
        return false;
      }
      var payout := balance + ctx.value - reserve;
      SentToAppend(transfers, Transfer(owner, payout), owner);
      deployed := true;
      received := received + ctx.value;
      balance := reserve;
      transfers := transfers + [Transfer(owner, payout)];
      ok := true;
    }

    /** The `getOwner` getter: the address fixed at init. */
    function GetOwner(): (r: Address)
      reads this
      ensures r == owner
    {
      owner
    }

    /** The `getRewardAmount` getter: always 0.01 TON. */
    function GetRewardAmount(): (r: nat)
      requires Valid()
      reads this
      ensures r == RewardAmount
    {
      rewardAmount
    }
  }
}

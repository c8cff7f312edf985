/**
 * The TipBot sandbox test suite, restated as verified methods over the model, one
 * per test case. Each method builds its own account the way the suite's `beforeEach` does and
 * returns what the test reads through the getters.
 */
module TipBotScenarios {
  import opened Ledger
  import opened TipBotAccount

  /**
   * Every tip in the suite must be covered: the 0.5 TON tip sent with 0.7 TON to an
   * account holding 0.05 TON leaves at most 0.25 TON for the reserve.
   */
  predicate TipSuiteReserve(reserve: nat)
  {
    reserve <= 250_000_000
  }

  /** `beforeEach`: `fromInit(deployer)` followed by a `Deploy` carrying 0.05 TON, which must succeed. */
  method DeployedTipBot(deployer: Address, reserve: nat) returns (bot: TipBot)
    ensures fresh(bot) && bot.Valid()
    ensures bot.deployed && bot.owner == deployer && bot.reserve == reserve
    ensures bot.totalTips == 0 && bot.balance == DeployValue && bot.transfers == []
  {
    bot := new TipBot.FromInit(deployer, reserve);
    var ok := bot.ReceiveDeploy(Context(deployer, DeployValue), 0);
  }

  /** "should deploy": the `Deploy` from the deployer is accepted and deploys the account. */
  method Deploys(deployer: Address, reserve: nat) returns (ok: bool, deployed: bool, owner: Address)
    ensures ok && deployed && owner == deployer
  {
    var bot := new TipBot.FromInit(deployer, reserve);
    ok := bot.ReceiveDeploy(Context(deployer, DeployValue), 0);
    deployed := bot.deployed;
    owner := bot.owner;
  }

  /** "should initialize with zero total tips". */
  method InitializesWithZeroTotalTips(deployer: Address, reserve: nat) returns (totalTips: nat)
    ensures totalTips == 0
  {
    var bot := DeployedTipBot(deployer, reserve);
    totalTips := bot.GetTotalTips();
  }

  /**
   * "should send tip and update total tips": a 1.0 TON tip with 1.2 TON attached is
   * accepted, forwards a transfer to the recipient and raises the total by the tip.
   */
  method SendsTipAndUpdatesTotal(deployer: Address, sender: Address, recipient: Address, reserve: nat)
    returns (ok: bool, totalBefore: nat, totalAfter: nat, recipientBefore: nat, recipientAfter: nat, forwarded: seq<Transfer>)
    requires TipSuiteReserve(reserve)
    ensures ok
    ensures totalAfter == totalBefore + NanoPerTon
    ensures forwarded == [Transfer(recipient, NanoPerTon)]
    ensures recipientAfter > recipientBefore
  {
    var bot := DeployedTipBot(deployer, reserve);
    totalBefore := bot.GetTotalTips();
    recipientBefore := SentTo(bot.transfers, recipient);
    ok := bot.ReceiveTip(Context(sender, 1_200_000_000), TipMessage(NanoPerTon, recipient, sender));
    totalAfter := bot.GetTotalTips();
    recipientAfter := SentTo(bot.transfers, recipient);
    forwarded := bot.transfers;
  }

  /** "should handle multiple tips": tips of 0.5 and 1.5 TON from two senders add up in the total. */
  method HandlesMultipleTips(deployer: Address, sender1: Address, sender2: Address, recipient: Address, reserve: nat)
    returns (totalTips: nat)
    requires TipSuiteReserve(reserve)
    ensures totalTips == 500_000_000 + 1_500_000_000
  {
    var bot := DeployedTipBot(deployer, reserve);
    var ok1 := bot.ReceiveTip(Context(sender1, 700_000_000), TipMessage(500_000_000, recipient, sender1));
    var ok2 := bot.ReceiveTip(Context(sender2, 1_700_000_000), TipMessage(1_500_000_000, recipient, sender2));
    totalTips := bot.GetTotalTips();
  }

  /** "should reject zero amount tips": the message fails, nothing is forwarded and the total stays 0. */
  method RejectsZeroAmountTips(deployer: Address, sender: Address, recipient: Address, reserve: nat)
    returns (ok: bool, totalTips: nat, forwarded: seq<Transfer>)
    ensures !ok && totalTips == 0 && forwarded == []
  {
    var bot := DeployedTipBot(deployer, reserve);
    ok := bot.ReceiveTip(Context(sender, 100_000_000), TipMessage(0, recipient, sender));
    totalTips := bot.GetTotalTips();
    forwarded := bot.transfers;
  }

  /** The sum of the amounts named in `tips`. */
  function SumTips(tips: seq<TipMessage>): nat
  {
    if tips == [] then 0 else SumTips(tips[..|tips| - 1]) + tips[|tips| - 1].amount
  }

  /**
   * Generalises "should handle multiple tips": any number of non-zero tips, from any
   * senders, each carrying at least its amount plus the reserve, are all accepted and
   * the total equals the sum of their amounts.
   */
  method TipsAccumulate(deployer: Address, reserve: nat, senders: seq<Address>, values: seq<nat>, tips: seq<TipMessage>)
    returns (accepted: nat, totalTips: nat)
    requires |senders| == |values| == |tips|
    requires forall i :: 0 <= i < |tips| ==> tips[i].amount > 0 && values[i] >= tips[i].amount + reserve
    ensures accepted == |tips|
    ensures totalTips == SumTips(tips)
  {
    var bot := DeployedTipBot(deployer, reserve);
    accepted := 0;
    for i := 0 to |tips|
      invariant bot.Valid()
      invariant accepted == i
      invariant bot.totalTips == SumTips(tips[..i])
    {
      var ok := bot.ReceiveTip(Context(senders[i], values[i]), tips[i]);
      if ok {
        accepted := accepted + 1;
      }
      assert tips[..i + 1][..i] == tips[..i];
    }
    assert tips[..|tips|] == tips;
    totalTips := bot.GetTotalTips();
  }
}

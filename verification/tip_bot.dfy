/**
 * The TipBot account program as its sandbox tests pin it down: it is initialised
 * with an owner, keeps a running `totalTips` counter, and forwards the amount named
 * in a `TipMessage` to the message's recipient.
 */
module TipBotAccount {
  import opened Ledger

  /** The `TipMessage` body: the amount to forward, who receives it, and who claims to send it. */
  datatype TipMessage = TipMessage(amount: nat, recipient: Address, sender: Address)

  class TipBot {
    const owner: Address
    /** Balance the account keeps for its own storage and processing; not available for tips. */
    const reserve: nat

    var deployed: bool
    var totalTips: nat
    var balance: nat
    /** Every transfer the account has issued, oldest first. */
    var transfers: seq<Transfer>
    /** Total value carried in by every accepted message. */
    ghost var received: nat

    /**
     * The counter is an audit of the forwarded value: it equals the sum of all
     * outbound transfers, and value is conserved between balance and transfers.
     */
    ghost predicate Valid()
      reads this
    {
      && totalTips == SumAmounts(transfers)
      && balance + SumAmounts(transfers) == received
    }

    /** `TipBot.fromInit(owner)`: the account exists but has not accepted a message yet. */
    constructor FromInit(owner: Address, reserve: nat)
      ensures Valid()
      ensures this.owner == owner && this.reserve == reserve
      ensures !deployed && totalTips == 0 && balance == 0 && transfers == []
    {
      this.owner := owner;
      this.reserve := reserve;
      deployed := false;
      totalTips := 0;
      balance := 0;
      transfers := [];
      received := 0;
    }

    /** The `Deploy` message: always accepted, marks the account deployed and keeps its attached value. */
    method ReceiveDeploy(ctx: Context, queryId: nat) returns (ok: bool)
      requires Valid()
      modifies this
      ensures Valid()
      ensures ok && deployed
      ensures balance == old(balance) + ctx.value
      ensures totalTips == old(totalTips) && transfers == old(transfers)
    {
      deployed := true;
      balance := balance + ctx.value;
      received := received + ctx.value;
      ok := true;
    }

    /**
     * The `TipMessage` receive. A zero amount is rejected; so is a tip the account
     * cannot cover from its balance plus the attached value without touching the
     * reserve. On success exactly one transfer of `amount` goes to the recipient and
     * `totalTips` grows by `amount`; on failure nothing changes.
     */
    method ReceiveTip(ctx: Context, msg: TipMessage) returns (ok: bool)
      requires Valid()
      modifies this
      ensures Valid()
      ensures ok <==> msg.amount > 0 && old(balance) + ctx.value >= msg.amount + reserve
      ensures ok ==> && deployed
                     && totalTips == old(totalTips) + msg.amount
                     && transfers == old(transfers) + [Transfer(msg.recipient, msg.amount)]
                     && balance == old(balance) + ctx.value - msg.amount
                     && balance >= reserve
                     && SentTo(transfers, msg.recipient) > SentTo(old(transfers), msg.recipient)
      ensures !ok ==> unchanged(this)
    {
      if msg.amount == 0 || balance + ctx.value < msg.amount + reserve {
        return false;
      }
      SentToAppend(transfers, Transfer(msg.recipient, msg.amount), msg.recipient);
      deployed := true;
      received := received + ctx.value;
      balance := balance + ctx.value - msg.amount;
      transfers := transfers + [Transfer(msg.recipient, msg.amount)];
      totalTips := totalTips + msg.amount;
      ok := true;
    }

    /** The `getTotalTips` getter: the sum of every amount the account has forwarded. */
    function GetTotalTips(): (r: nat)
      requires Valid()
      reads this
      ensures r == SumAmounts(transfers)
    {
      totalTips
    }
  }
}

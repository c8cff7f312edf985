/**
 * The tip form's "Send Tip" handler: it checks that both fields are filled and a
 * wallet is connected, then asks the wallet to send the tip, clearing the form only
 * when that succeeds.
 */
module TipBotInteraction {
  import opened Ledger

  const FillFieldsAlert: string := "Please fill in all fields"
  const ConnectAlert: string := "Please connect your wallet"
  const SentAlert: string := "Tip sent successfully!"
  const FailedAlert: string := "Transaction failed"

  /** The arguments of one `sendTipMessage` call: amount text, recipient, and the tipping user's address. */
  datatype TipRequest = TipRequest(amount: string, recipientAddress: string, senderAddress: string)

  /** Whether the tip reached the wallet and was sent, or some step of sending it threw. */
  datatype TipOutcome = Sent | Failed

  /** Which early return, if any, the handler takes. */
  datatype Guard = MissingField | NoWallet | Proceed

  /** The two guards in the order the handler runs them: both fields filled first, then a connected wallet. */
  function CheckTip(amount: string, recipientAddress: string, userAddress: Address): (g: Guard)
    ensures g == MissingField <==> amount == [] || recipientAddress == []
    ensures g == NoWallet <==> amount != [] && recipientAddress != [] && userAddress == []
    ensures g == Proceed <==> amount != [] && recipientAddress != [] && userAddress != []
  {
    if amount == [] || recipientAddress == [] then MissingField
    else if userAddress == [] then NoWallet
    else Proceed
  }

  class TipForm {
    var amount: string
    var recipientAddress: string
    /** The connected wallet's address; empty when no wallet is connected. */
    var userAddress: Address
    var isLoading: bool
    /** Every alert shown, oldest first. */
    var alerts: seq<string>
    /** Every `sendTipMessage` call made, oldest first. */
    var requests: seq<TipRequest>

    constructor (userAddress: Address)
      ensures this.userAddress == userAddress
      ensures amount == [] && recipientAddress == [] && !isLoading && alerts == [] && requests == []
    {
      this.userAddress := userAddress;
      amount := [];
      recipientAddress := [];
      isLoading := false;
      alerts := [];
      requests := [];
    }

    /**
     * `handleSendTip`, given how the send turns out. A failed guard only raises its
     * alert: nothing is sent and the loading flag is not touched. Otherwise one tip is
     * requested with the connected user as sender; success clears both fields, failure
     * keeps them, and either way the form ends up not loading.
     */
    method HandleSendTip(outcome: TipOutcome)
      modifies this`amount, this`recipientAddress, this`isLoading, this`alerts, this`requests
      ensures var g := CheckTip(old(amount), old(recipientAddress), userAddress);
              && (g == MissingField ==> alerts == old(alerts) + [FillFieldsAlert])
              && (g == NoWallet ==> alerts == old(alerts) + [ConnectAlert])
              && (g != Proceed ==> && requests == old(requests) && isLoading == old(isLoading)
                                   && amount == old(amount) && recipientAddress == old(recipientAddress))
              && (g == Proceed ==> && requests == old(requests) + [TipRequest(old(amount), old(recipientAddress), userAddress)]
                                   && !isLoading)
      ensures CheckTip(old(amount), old(recipientAddress), userAddress) == Proceed && outcome.Sent? ==>
                amount == [] && recipientAddress == [] && alerts == old(alerts) + [SentAlert]
      ensures CheckTip(old(amount), old(recipientAddress), userAddress) == Proceed && outcome.Failed? ==>
                amount == old(amount) && recipientAddress == old(recipientAddress) && alerts == old(alerts) + [FailedAlert]
    {
      var guard := CheckTip(amount, recipientAddress, userAddress);
      if guard == MissingField {
        alerts := alerts + [FillFieldsAlert];
        return;
      }
      if guard == NoWallet {
        alerts := alerts + [ConnectAlert];
        return;
      }
      isLoading := true;
      requests := requests + [TipRequest(amount, recipientAddress, userAddress)];
      if outcome.Sent? {
        alerts := alerts + [SentAlert];
        amount := [];
        recipientAddress := [];
      } else {
        alerts := alerts + [FailedAlert];
      }
      isLoading := false;
    }
  }
}

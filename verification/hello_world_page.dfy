/**
 * The HelloWorld page's "Add" button: it checks the wallet, then the amount typed
 * into the form, then builds a one-message transaction carrying an `Add` body to the
 * HelloWorld account and hands it to the wallet.
 */
module HelloWorldPage {
  import opened Common
  import opened Ledger
  import opened HelloWorldAccount

  const ContractAddress: string := "EQDmj9bqTleRjqQ2PpuLEwhFzNJPL2_4SxPQF2l3AkAwGEtn"
  /** 0.05 TON attached to pay for the `Add`. */
  const AddValue: nat := 50_000_000
  /** The transaction is valid for ten minutes. */
  const ValiditySeconds: nat := 600

  const ConnectPrompt: string := "Please connect your TON wallet first."
  const RangePrompt: string := "Please enter a valid amount (1 to 4294967295)"
  const SentStatus: string := "Transaction sent! Waiting for confirmation..."
  const FailedPrefix: string := "Transaction failed: "
  /** Stands for the engine's message when `BigInt` is given a value that is not an integer. */
  const NotIntegerMessage: string := "cannot convert a non-integer to a BigInt"

  /** The form's amount after `Number(...)` of the input text: a number, or NaN. */
  datatype JsNumber = Finite(value: real) | NaN

  /** What the wallet did with the transaction: accepted it, or threw with a message. */
  datatype WalletOutcome = Sent | Threw(message: string)

  datatype OutMessage = OutMessage(address: string, amount: nat, payload: Add)
  datatype Transaction = Transaction(validUntil: int, messages: seq<OutMessage>)

  /** The range check: `addAmount <= 0 || addAmount > 0xffffffff`; NaN passes it, as every comparison with NaN is false. */
  predicate OutOfRange(addAmount: JsNumber)
    ensures addAmount.NaN? ==> !OutOfRange(addAmount)
    ensures addAmount.Finite? && addAmount.value == addAmount.value.Floor as real ==>
              (OutOfRange(addAmount) <==> !(1 <= addAmount.value.Floor <= MaxUint32))
  {
    addAmount.Finite? && (addAmount.value <= 0.0 || addAmount.value > MaxUint32 as real)
  }

  /** `BigInt(addAmount)`: defined exactly on integral numbers, and then equal to them. */
  function ToBigInt(addAmount: JsNumber): (r: Option<int>)
    ensures r.Some? <==> addAmount.Finite? && addAmount.value == addAmount.value.Floor as real
    ensures r.Some? ==> r.value as real == addAmount.value
  {
    if addAmount.Finite? && addAmount.value.Floor as real == addAmount.value then Some(addAmount.value.Floor) else None
  }

  /** An amount that passes the range check and converts fits the `uint32` field of `Add` and is not zero. */
  lemma {:induction false} GuardedAmountFitsUint32(addAmount: JsNumber)
    requires !OutOfRange(addAmount) && ToBigInt(addAmount).Some?
    ensures 1 <= ToBigInt(addAmount).value <= MaxUint32
  {
  }

  /** The transaction built for `amount` at wall-clock time `nowMs` (milliseconds). */
  function AddTransaction(amount: Uint32, nowMs: nat): (tx: Transaction)
    ensures |tx.messages| == 1
    ensures tx.messages[0] == OutMessage(ContractAddress, AddValue, Add(amount))
    ensures tx.validUntil == nowMs / 1000 + ValiditySeconds
  {
    Transaction(nowMs / 1000 + ValiditySeconds, [OutMessage(ContractAddress, AddValue, Add(amount))])
  }

  class AddForm {
    var walletConnected: bool
    var addAmount: JsNumber
    var status: string
    var isLoading: bool
    /** Every transaction handed to the wallet, oldest first. */
    var sent: seq<Transaction>

    /** The page's initial state: amount 1, empty status, not loading. */
    constructor (walletConnected: bool)
      ensures this.walletConnected == walletConnected
      ensures addAmount == Finite(1.0) && status == "" && !isLoading && sent == []
    {
      this.walletConnected := walletConnected;
      addAmount := Finite(1.0);
      status := "";
      isLoading := false;
      sent := [];
    }

    /**
     * `onAddClick`, given the clock and what the wallet does. Without a wallet only the
     * connect prompt is shown; then an out-of-range amount only shows the range prompt.
     * Past both guards the page ends up not loading: a non-integral amount fails before
     * anything is sent, and an integral one sends exactly one `Add` transaction and
     * reports what the wallet did.
     */
    method OnAddClick(nowMs: nat, outcome: WalletOutcome)
      modifies this`status, this`isLoading, this`sent
      ensures !walletConnected ==> status == ConnectPrompt && isLoading == old(isLoading) && sent == old(sent)
      ensures walletConnected && OutOfRange(addAmount) ==>
                status == RangePrompt && isLoading == old(isLoading) && sent == old(sent)
      ensures walletConnected && !OutOfRange(addAmount) ==> !isLoading
      ensures walletConnected && !OutOfRange(addAmount) && ToBigInt(addAmount).None? ==>
                status == FailedPrefix + NotIntegerMessage && sent == old(sent)
      ensures walletConnected && !OutOfRange(addAmount) && ToBigInt(addAmount).Some? ==>
                && 1 <= ToBigInt(addAmount).value <= MaxUint32
                && sent == old(sent) + [AddTransaction(ToBigInt(addAmount).value, nowMs)]
                && status == (if outcome.Sent? then SentStatus else FailedPrefix + outcome.message)
    {
      if !walletConnected {
        status := ConnectPrompt;
        return;
      }
      if OutOfRange(addAmount) {
        status := RangePrompt;
        return;
      }
      isLoading := true;
      status := "Preparing transaction...";
      var converted := ToBigInt(addAmount);
      if converted.None? {
        status := FailedPrefix + NotIntegerMessage;
      } else {
        GuardedAmountFitsUint32(addAmount);
        var tx := AddTransaction(converted.value, nowMs);
        status := "Sending transaction...";
        sent := sent + [tx];
        if outcome.Sent? {
          status := SentStatus;
        } else {
          status := FailedPrefix + outcome.message;
        }
      }
      isLoading := false;
    }
  }

  /**
   * The page and the account together: an integral amount in range, clicked with a
   * wallet connected, yields a transaction whose one message, delivered to a
   * HelloWorld account, raises its counter by exactly that amount.
   */
  method ClickedAddReachesCounter(amount: nat, nowMs: nat, user: Address, startCounter: nat)
    returns (tx: Transaction, counterBefore: nat, counterAfter: nat)
    requires 1 <= amount <= MaxUint32
    ensures |tx.messages| == 1 && tx.messages[0].address == ContractAddress && tx.messages[0].amount == AddValue
    ensures tx.validUntil == nowMs / 1000 + ValiditySeconds
    ensures counterAfter == counterBefore + amount
  {
    var form := new AddForm(true);
    form.addAmount := Finite(amount as real);
    form.OnAddClick(nowMs, Sent);
    tx := form.sent[|form.sent| - 1];
    var account := new HelloWorld.FromInit(0, startCounter);
    counterBefore := account.GetCounter();
    var ok := account.ReceiveAdd(Context(user, tx.messages[0].amount), tx.messages[0].payload);
    counterAfter := account.GetCounter();
  }
}

/**
 * The HelloWorld account program as its sandbox tests pin it down: an `id` and a
 * `counter` fixed by `fromInit`, and an `Add` message that any sender may use to
 * raise the counter.
 */
module HelloWorldAccount {
  import opened Common
  import opened Ledger

  /** The `Add` message body; its `amount` is a `uint32` field. */
  datatype Add = Add(amount: Uint32)

  class HelloWorld {
    const id: nat
    var counter: nat
    var deployed: bool
    var balance: nat

    /** `HelloWorld.fromInit(id, counter)`: the account exists but has not accepted a message yet. */
    constructor FromInit(id: nat, counter: nat)
      ensures this.id == id && this.counter == counter
      ensures !deployed && balance == 0
    {
      this.id := id;
      this.counter := counter;
      deployed := false;
      balance := 0;
    }

    /** A message with an empty body: accepted, deploys the account, leaves the counter alone. */
    method ReceiveEmpty(ctx: Context) returns (ok: bool)
      modifies this
      ensures ok && deployed
      ensures counter == old(counter) && balance == old(balance) + ctx.value
    {
      deployed := true;
      balance := balance + ctx.value;
      ok := true;
    }

    /** `Add(amount)`: accepted from any sender, for every `uint32` amount including 0; the counter grows by `amount`. */
    method ReceiveAdd(ctx: Context, msg: Add) returns (ok: bool)
      modifies this
      ensures ok && deployed
      ensures counter == old(counter) + msg.amount
      ensures balance == old(balance) + ctx.value
    {
      deployed := true;
      balance := balance + ctx.value;
      counter := counter + msg.amount;
      ok := true;
    }

    /** The `counter` getter. */
    function GetCounter(): (r: nat)
      reads this
      ensures r == counter
    {
      counter
    }

    /** The `id` getter: the value fixed at init. */
    function GetId(): (r: nat)
      reads this
      ensures r == id
    {
      id
    }
  }
}

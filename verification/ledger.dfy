/**
 * Vocabulary shared by the three account programs: addresses, the envelope of an
 * inbound message, and the log of outbound value transfers an account issues.
 * All amounts are in nanotons (1 TON = 1_000_000_000 nanotons).
 */
module Ledger {

  /** An account address, kept opaque. */
  type Address = string

  const NanoPerTon: nat := 1_000_000_000

  /** The 0.05 TON each test suite attaches to the message that deploys an account. */
  const DeployValue: nat := 50_000_000

  /** What the host ledger tells a receive handler about the inbound message. */
  datatype Context = Context(from: Address, value: nat)

  /** One outbound transfer issued by an account. */
  datatype Transfer = Transfer(to: Address, amount: nat)

  /** Total value that left the account through `log`. */
  function SumAmounts(log: seq<Transfer>): nat
  {
    if log == [] then 0 else SumAmounts(log[..|log| - 1]) + log[|log| - 1].amount
  }

  /** Total value that `log` delivered to `who`. */
  function SentTo(log: seq<Transfer>, who: Address): nat
  {
    if log == [] then 0
    else SentTo(log[..|log| - 1], who) + (if log[|log| - 1].to == who then log[|log| - 1].amount else 0)
  }

  /** Appending a transfer raises what its destination received by its amount and leaves every other address alone. */
  lemma SentToAppend(log: seq<Transfer>, t: Transfer, who: Address)
    ensures SentTo(log + [t], who) == SentTo(log, who) + (if t.to == who then t.amount else 0)
    ensures SumAmounts(log + [t]) == SumAmounts(log) + t.amount
  {
  }
}

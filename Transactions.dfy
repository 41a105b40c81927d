/**
 * The transaction record: one request to move `amount` from a payer to a
 * payee, its status, the insufficient-funds gate `CheckBalance`, and the sums
 * over a sequence of transactions that the ledger invariant is stated with.
 */
module Transactions {
  import opened Wrappers
  import opened Wallets

  /** `scheduled` until the processing job decides; `finalized` and `unauthorized` are terminal. */
  datatype Status = Scheduled | Unauthorized | Finalized

  /** A transaction row. `intermediation` is the intermediation amount, a fee added to what the payer must cover. */
  datatype Transaction = Transaction(
    payer: Owner,
    payee: Owner,
    amount: int,
    intermediation: int,
    schedulingDate: int,
    description: Option<string>,
    status: Status)

  /** An HTTP abort: a status code and a message. */
  datatype Abort = Abort(code: int, message: string)

  /** The abort the balance gate raises. */
  const InsufficientBalance := Abort(406, "Insufficient balance")

  /** The payer can cover the transfer: amount plus intermediation does not exceed the available balance. */
  predicate BalanceOk(t: Transaction, available: int)
  {
    t.amount + t.intermediation <= available
  }

  /** The balance gate: looks up the payer's wallet and aborts when the transfer exceeds its available balance. */
  function CheckBalance(t: Transaction, wallets: map<Owner, Balance>): (r: Outcome<Abort>)
    requires t.payer in wallets
    ensures r.Pass? <==> BalanceOk(t, wallets[t.payer].available)
    ensures r.Fail? ==> r.error == InsufficientBalance
  {
    var availableBalance := wallets[t.payer].available;
    var transferAmount := t.amount + t.intermediation;
    if transferAmount > availableBalance then Fail(InsufficientBalance) else Pass
  }

  /** Only the payer's wallet is consulted: wallets that agree on the payer give the same verdict. */
  lemma CheckBalanceReadsPayerOnly(t: Transaction, w1: map<Owner, Balance>, w2: map<Owner, Balance>)
    requires t.payer in w1 && t.payer in w2
    requires w1[t.payer].available == w2[t.payer].available
    ensures CheckBalance(t, w1) == CheckBalance(t, w2)
  {
  }

  /** The comparison is strict: a transfer of exactly the available balance passes, one unit more does not. */
  lemma ExactBalanceAccepted(t: Transaction, wallets: map<Owner, Balance>)
    requires t.payer in wallets && t.intermediation == 0
    requires t.amount == wallets[t.payer].available
    ensures CheckBalance(t, wallets).Pass?
    ensures CheckBalance(t.(amount := t.amount + 1), wallets) == Fail(InsufficientBalance)
  {
  }

  /** A passed gate leaves both payer balances non-negative after the reservation of `amount`. */
  lemma CheckedReservationNonNegative(t: Transaction, wallets: map<Owner, Balance>)
    requires t.payer in wallets
    requires wallets[t.payer].available >= 0 && wallets[t.payer].blocked >= 0
    requires t.amount >= 0 && t.intermediation >= 0
    requires CheckBalance(t, wallets).Pass?
    ensures ReserveIn(wallets, t.payer, t.amount)[t.payer].available >= 0
    ensures ReserveIn(wallets, t.payer, t.amount)[t.payer].blocked >= 0
  {
  }

  /** What transaction `t` holds blocked in the wallet of `o`: its amount while it is a scheduled transfer paid by `o`. */
  function Reservation(t: Transaction, o: Owner): int
  {
    if t.status == Scheduled && t.payer == o then t.amount else 0
  }

  /** The money that the scheduled transactions paid by `o` keep blocked. */
  function Reserved(txs: seq<Transaction>, o: Owner): int
  {
    if txs == [] then 0 else Reserved(txs[..|txs| - 1], o) + Reservation(txs[|txs| - 1], o)
  }

  /** One for a finalized transaction, nothing otherwise. */
  function FinalizedWeight(t: Transaction): int
  {
    if t.status == Finalized then 1 else 0
  }

  /** The number of finalized transactions. */
  function FinalizedCount(txs: seq<Transaction>): int
  {
    if txs == [] then 0 else FinalizedCount(txs[..|txs| - 1]) + FinalizedWeight(txs[|txs| - 1])
  }

  /** Every transaction moves a positive amount. */
  ghost predicate PositiveAmounts(txs: seq<Transaction>)
  {
    forall k :: 0 <= k < |txs| ==> txs[k].amount > 0
  }

  lemma ReservedAppend(txs: seq<Transaction>, t: Transaction, o: Owner)
    ensures Reserved(txs + [t], o) == Reserved(txs, o) + Reservation(t, o)
  {
    assert (txs + [t])[..|txs|] == txs;
  }

  lemma FinalizedCountAppend(txs: seq<Transaction>, t: Transaction)
    ensures FinalizedCount(txs + [t]) == FinalizedCount(txs) + FinalizedWeight(t)
  {
    assert (txs + [t])[..|txs|] == txs;
  }

  /** Replacing one transaction changes what `o` has reserved by exactly the difference. */
  lemma {:induction false} ReservedUpdate(txs: seq<Transaction>, i: nat, t: Transaction, o: Owner)
    requires i < |txs|
    ensures Reserved(txs[i := t], o) == Reserved(txs, o) - Reservation(txs[i], o) + Reservation(t, o)
    decreases |txs|
  {
    var n := |txs| - 1;
    if i == n {
      assert txs[i := t][..n] == txs[..n];
    } else {
      ReservedUpdate(txs[..n], i, t, o);
      assert txs[i := t][..n] == txs[..n][i := t];
    }
  }

  /** Replacing one transaction changes the finalized count by exactly the difference. */
  lemma {:induction false} FinalizedCountUpdate(txs: seq<Transaction>, i: nat, t: Transaction)
    requires i < |txs|
    ensures FinalizedCount(txs[i := t]) == FinalizedCount(txs) - FinalizedWeight(txs[i]) + FinalizedWeight(t)
    decreases |txs|
  {
    var n := |txs| - 1;
    if i == n {
      assert txs[i := t][..n] == txs[..n];
    } else {
      FinalizedCountUpdate(txs[..n], i, t);
      assert txs[i := t][..n] == txs[..n][i := t];
    }
  }

  /** With positive amounts, nothing reserved is negative. */
  lemma {:induction false} ReservedNonNegative(txs: seq<Transaction>, o: Owner)
    requires PositiveAmounts(txs)
    ensures Reserved(txs, o) >= 0
    decreases |txs|
  {
    if txs != [] {
      ReservedNonNegative(txs[..|txs| - 1], o);
    }
  }

  /** With positive amounts, the reservations of `o` cover each scheduled transaction `o` pays. */
  lemma {:induction false} ReservedCovers(txs: seq<Transaction>, i: nat)
    requires PositiveAmounts(txs) && i < |txs| && txs[i].status == Scheduled
    ensures Reserved(txs, txs[i].payer) >= txs[i].amount
    decreases |txs|
  {
    var n := |txs| - 1;
    ReservedNonNegative(txs[..n], txs[i].payer);
    if i < n {
      ReservedCovers(txs[..n], i);
    }
  }

  /** Nothing is reserved for an account that pays none of the transactions. */
  lemma {:induction false} ReservedNone(txs: seq<Transaction>, o: Owner)
    requires forall k :: 0 <= k < |txs| ==> txs[k].payer != o
    ensures Reserved(txs, o) == 0
    decreases |txs|
  {
    if txs != [] {
      ReservedNone(txs[..|txs| - 1], o);
    }
  }
}

/**
 * The transfer service over mutable rows.  `Ledger` holds the accounts (each
 * owning one `Wallet` object whose balances are changed in place), the
 * transaction rows, the extract rows and the dispatched jobs.  `Store` is the
 * admission request; `Settle`, `Release` and `Process` are the processing
 * job.  Each method is proved against the step function of `Workflow` on the
 * abstract value `State()`, and keeps `Valid()`.
 */
module TransactionService {
  import opened Wrappers
  import opened Wallets
  import opened Transactions
  import opened TransactionValidator
  import opened Workflow

  /** An account: its display name and the one wallet it owns. */
  datatype Account = Account(name: string, wallet: Wallet)

  class Ledger {
    /** The user and store accounts; the service never opens or closes one. */
    const accounts: map<Owner, Account>
    var transactions: seq<Transaction>
    var extracts: seq<Extract>
    var jobs: seq<nat>
    /** The balances of the accounts' wallet rows, kept in step with the rows by `Mirrors`. */
    ghost var balances: map<Owner, Balance>

    /** The wallet objects of all accounts. */
    ghost function Wallets(): set<Wallet>
    {
      set o | o in accounts :: accounts[o].wallet
    }

    /** The display name of every account. */
    function Names(): map<Owner, string>
    {
      map o | o in accounts :: accounts[o].name
    }

    /** The abstract value of the ledger. */
    ghost function State(): LedgerState
      reads this
    {
      LedgerState(Names(), balances, transactions, extracts, jobs)
    }

    /** No two accounts share a wallet row. */
    ghost predicate WalletsDistinct()
    {
      forall o, p :: o in accounts && p in accounts && o != p ==> accounts[o].wallet != accounts[p].wallet
    }

    /** `balances` holds exactly the current balances of every account's wallet row. */
    ghost predicate Mirrors()
      reads this, Wallets()
    {
      && balances.Keys == accounts.Keys
      && forall o :: o in accounts ==> balances[o] == Balance(accounts[o].wallet.available, accounts[o].wallet.blocked)
    }

    ghost predicate Valid()
      reads this, Wallets()
    {
      WalletsDistinct() && Mirrors() && Consistent(State())
    }

    /** A ledger over existing accounts whose wallets hold nothing blocked, with no transaction yet. */
    constructor (accounts: map<Owner, Account>)
      requires forall o, p :: o in accounts && p in accounts && o != p ==> accounts[o].wallet != accounts[p].wallet
      requires forall o :: o in accounts ==> accounts[o].wallet.available >= 0 && accounts[o].wallet.blocked == 0
      ensures Valid() && this.accounts == accounts
      ensures State().names == map o | o in accounts :: accounts[o].name
      ensures State().balances == map o | o in accounts :: Balance(accounts[o].wallet.available, 0)
      ensures State().transactions == [] && State().extracts == [] && State().jobs == []
    {
      this.accounts := accounts;
      balances := map o | o in accounts :: Balance(accounts[o].wallet.available, 0);
      transactions, extracts, jobs := [], [], [];
      new;
      ReservedNone([], Owner(UserAccount, 0));
    }

    /**
     * The admission request of the authenticated caller `payer`: default the
     * date, validate, check the balance, save the scheduled transaction,
     * reserve its amount on the payer's wallet, dispatch one job.
     */
    method Store(payer: Owner, input: TransferInput, today: int) returns (r: Result<Transaction, StoreError>)
      requires Valid() && payer in accounts
      modifies this, accounts[payer].wallet
      ensures Valid()
      ensures (r, State()) == StoreStep(old(State()), payer, input, today)
    {
      ghost var before := State();
      var data := WithDefaultDate(input, today);
      var verdict := Validate(data, UserIds(accounts.Keys), today);
      if verdict.Fail? {
        r := Failure(ValidationFailed(verdict.error));
        assert r == Admission(before, payer, input, today);
        return;
      }
      var t := Make(payer, data);
      var wallet := accounts[payer].wallet;
      var check := CheckBalance(t, map[payer := Balance(wallet.available, wallet.blocked)]);
      CheckBalanceReadsPayerOnly(t, map[payer := Balance(wallet.available, wallet.blocked)], before.balances);
      if check.Fail? {
        r := Failure(Aborted(check.error));
        assert r == Admission(before, payer, input, today);
        return;
      }
      assert Admission(before, payer, input, today) == Success(t);
      Commit(t);
      r := Success(t);
    }

    /** Save the scheduled row, reserve its amount on the payer's wallet, dispatch one job for it. */
    method Commit(t: Transaction)
      requires Valid() && Recorded(t, accounts.Keys) && t.status == Scheduled
      requires t.amount <= accounts[t.payer].wallet.available
      modifies this, accounts[t.payer].wallet
      ensures Valid()
      ensures State() == Workflow.Commit(old(State()), t)
    {
      ghost var before := State();
      Reserve(t.payer, t.amount);
      var job: nat := |transactions|;
      jobs := jobs + [job];
      transactions := transactions + [t];
      assert State() == Workflow.Commit(before, t);
      CommitKeepsConsistent(before, t);
    }

    /** Move `amount` from the available to the blocked balance of the wallet of `o`. */
    method Reserve(o: Owner, amount: int)
      requires WalletsDistinct() && Mirrors() && o in accounts
      modifies this`balances, accounts[o].wallet
      ensures Mirrors() && balances == ReserveIn(old(balances), o, amount)
    {
      var wallet := accounts[o].wallet;
      wallet.DecreaseAvailableBalance(amount);
      wallet.IncrementBlockedBalance(amount);
      balances := ReserveIn(balances, o, amount);
      forall p | p in accounts
        ensures balances[p] == Balance(accounts[p].wallet.available, accounts[p].wallet.blocked)
      {
        if p != o {
          assert accounts[p].wallet != wallet;
        }
      }
    }

    /** Take `amount` off the blocked balance of the payer's wallet and add it to the available balance of the payee's. */
    method Transfer(payer: Owner, payee: Owner, amount: int)
      requires WalletsDistinct() && Mirrors() && payer in accounts && payee in accounts
      modifies this`balances, accounts[payer].wallet, accounts[payee].wallet
      ensures Mirrors() && balances == SettleIn(old(balances), payer, payee, amount)
    {
      var payerWallet := accounts[payer].wallet;
      var payeeWallet := accounts[payee].wallet;
      payerWallet.DecreaseBlockedBalance(amount);
      payeeWallet.IncrementAvailableBalance(amount);
      balances := SettleIn(balances, payer, payee, amount);
      forall p | p in accounts
        ensures balances[p] == Balance(accounts[p].wallet.available, accounts[p].wallet.blocked)
      {
        if payer != payee && (p == payer || p == payee) {
          assert payerWallet != payeeWallet;
        } else if p != payer && p != payee {
          assert accounts[p].wallet != payerWallet && accounts[p].wallet != payeeWallet;
        }
      }
    }

    /** Move `amount` back from the blocked to the available balance of the wallet of `o`. */
    method Restore(o: Owner, amount: int)
      requires WalletsDistinct() && Mirrors() && o in accounts
      modifies this`balances, accounts[o].wallet
      ensures Mirrors() && balances == ReleaseIn(old(balances), o, amount)
    {
      var wallet := accounts[o].wallet;
      wallet.DecreaseBlockedBalance(amount);
      wallet.IncrementAvailableBalance(amount);
      balances := ReleaseIn(balances, o, amount);
      forall p | p in accounts
        ensures balances[p] == Balance(accounts[p].wallet.available, accounts[p].wallet.blocked)
      {
        if p != o {
          assert accounts[p].wallet != wallet;
        }
      }
    }

    /** The approved path of the job: settle, write both extracts, mark the transaction finalized. */
    method Settle(id: nat)
      requires Valid() && id < |transactions| && transactions[id].status == Scheduled
      modifies this, Wallets()
      ensures Valid()
      ensures State() == SettleStep(old(State()), id)
    {
      ghost var before := State();
      var t := transactions[id];
      Transfer(t.payer, t.payee, t.amount);
      extracts := extracts + [
        Extract(t.payer, t.amount, Outgoing, accounts[t.payer].wallet.available, accounts[t.payee].name),
        Extract(t.payee, t.amount, Incoming, accounts[t.payee].wallet.available, accounts[t.payer].name)];
      transactions := transactions[id := t.(status := Finalized)];
      assert State() == SettleStep(before, id);
      SettleKeepsConsistent(before, id);
    }

    /** The denied (or failed authorizer) path of the job: give the reservation back, mark the transaction unauthorized. */
    method Release(id: nat)
      requires Valid() && id < |transactions| && transactions[id].status == Scheduled
      modifies this, Wallets()
      ensures Valid()
      ensures State() == ReleaseStep(old(State()), id)
    {
      ghost var before := State();
      var t := transactions[id];
      Restore(t.payer, t.amount);
      transactions := transactions[id := t.(status := Unauthorized)];
      assert State() == ReleaseStep(before, id);
      ReleaseKeepsConsistent(before, id);
    }

    /** The processing job for transaction `id`, given the authorizer's and the notifier's outcomes. */
    method Process(id: nat, decision: AuthorizerOutcome, notifier: NotifierOutcome)
      requires Valid() && id < |transactions| && transactions[id].status == Scheduled
      modifies this, Wallets()
      ensures Valid()
      ensures State() == ProcessStep(old(State()), id, decision, notifier)
    {
      ScheduledIsCovered(State(), id);
      if decision == Approved {
        Settle(id);
      } else {
        Release(id);
      }
    }
  }
}

/**
 * The numeric scenarios of the transfer feature, replayed on the model: two
 * users (the payer seeded with some available balance, the payee with
 * nothing), one request without a scheduling date, and the processing job
 * with a given authorizer answer.
 */
module Scenarios {
  import opened Wrappers
  import opened Wallets
  import opened Transactions
  import opened TransactionValidator
  import opened Workflow

  const PayerUser := Owner(UserAccount, 1)
  const PayeeUser := Owner(UserAccount, 2)
  const Shop := Owner(StoreAccount, 1)
  const Today := 19000

  /** Two users with empty blocked balances; only the payer holds available funds. */
  function TwoUsers(payerAvailable: int): LedgerState
  {
    LedgerState(map[PayerUser := "Payer", PayeeUser := "Payee"],
                map[PayerUser := Balance(payerAvailable, 0), PayeeUser := Balance(0, 0)],
                [], [], [])
  }

  /** A request naming payee_id and amount, with no scheduling date and no description. */
  function Request(payeeId: int, amount: int): TransferInput
  {
    TransferInput(Present(payeeId), Missing, Present(amount), None)
  }

  /** 100 available, 60 requested: 40 stays available, 60 is blocked, the payee is untouched, one job for row 0. */
  lemma ScheduledTransferScenario()
    ensures var out := StoreStep(TwoUsers(100), PayerUser, Request(2, 60), Today);
            && out.0 == Success(Transaction(PayerUser, PayeeUser, 60, 0, Today, None, Scheduled))
            && out.1.balances[PayerUser] == Balance(40, 60)
            && out.1.balances[PayeeUser] == Balance(0, 0)
            && out.1.transactions == [out.0.value]
            && out.1.jobs == [0]
  {
  }

  /**
   * 1500 available, 300 approved: the payer ends with 1200 and nothing
   * blocked, the payee with 300; the row is finalized and the two extract
   * lines carry 1200 and 300 with the counterparty names.  A failing
   * notifier gives the same result.
   */
  lemma ApprovedTransferScenario(notifier: NotifierOutcome)
    ensures var out := StoreStep(TwoUsers(1500), PayerUser, Request(2, 300), Today);
            && out.0.Success? && Ready(out.1, 0)
            && var r := ProcessStep(out.1, 0, Approved, notifier);
            && r.balances[PayerUser] == Balance(1200, 0)
            && r.balances[PayeeUser] == Balance(300, 0)
            && r.transactions == [Transaction(PayerUser, PayeeUser, 300, 0, Today, None, Finalized)]
            && r.extracts == [Extract(PayerUser, 300, Outgoing, 1200, "Payee"),
                              Extract(PayeeUser, 300, Incoming, 300, "Payer")]
  {
  }

  /** 1000 available, 150 denied or not authorized at all: the payer is back at 1000 with nothing blocked, the payee at 0, the row unauthorized, no extract. */
  lemma DeniedTransferScenario(decision: AuthorizerOutcome, notifier: NotifierOutcome)
    requires decision != Approved
    ensures var out := StoreStep(TwoUsers(1000), PayerUser, Request(2, 150), Today);
            && out.0.Success? && Ready(out.1, 0)
            && var r := ProcessStep(out.1, 0, decision, notifier);
            && r.balances == TwoUsers(1000).balances
            && r.transactions == [Transaction(PayerUser, PayeeUser, 150, 0, Today, None, Unauthorized)]
            && r.extracts == []
  {
  }

  /** Nothing available, 100 requested: the 406 abort, and nothing changes. */
  lemma InsufficientBalanceScenario()
    ensures var out := StoreStep(TwoUsers(0), PayerUser, Request(2, 100), Today);
            && out.0 == Failure(Aborted(Abort(406, "Insufficient balance")))
            && out.1 == TwoUsers(0)
  {
  }

  /** An unknown payee id (-1) is refused on payee_id alone, and nothing changes. */
  lemma UnknownPayeeScenario()
    ensures var out := StoreStep(TwoUsers(1000), PayerUser, Request(-1, 100), Today);
            && out.0 == Failure(ValidationFailed([PayeeId]))
            && out.1 == TwoUsers(1000)
  {
    assert Failures(WithDefaultDate(Request(-1, 100), Today), {1, 2}, Today) == [PayeeId];
  }

  /** An amount of 0 is refused on amount alone, and nothing changes. */
  lemma AmountTooLowScenario()
    ensures var out := StoreStep(TwoUsers(1000), PayerUser, Request(2, 0), Today);
            && out.0 == Failure(ValidationFailed([Amount]))
            && out.1 == TwoUsers(1000)
  {
    assert Failures(WithDefaultDate(Request(2, 0), Today), {1, 2}, Today) == [Amount];
  }

  /** Settling a reserved 300 towards a store account: the store's wallet gets the same credit a user's would. */
  lemma StorePayeeScenario()
    ensures var t := Transaction(PayerUser, Shop, 300, 0, Today, None, Scheduled);
            var s := LedgerState(map[PayerUser := "Payer", Shop := "Shop"],
                                 map[PayerUser := Balance(1200, 300), Shop := Balance(0, 0)],
                                 [t], [], [0]);
            && Ready(s, 0)
            && var r := SettleStep(s, 0);
            && r.balances[PayerUser] == Balance(1200, 0)
            && r.balances[Shop] == Balance(300, 0)
            && r.transactions == [t.(status := Finalized)]
            && r.extracts == [Extract(PayerUser, 300, Outgoing, 1200, "Shop"),
                              Extract(Shop, 300, Incoming, 300, "Payer")]
  {
  }
}
